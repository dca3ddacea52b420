/** Splitting the updates of a transaction that change a handle or unique key into a delete and an
    insert, sorting the result, and what running it downstream does. */
module SplitSort {
  import opened Prelude
  import opened Sums

  datatype Value = Null | Val(v: int)

  /** One ColumnData of a row; a nil pointer for a column that carries no data. */
  datatype Cell = Nil | Cell(id: nat, value: Value)

  type Row = seq<Cell>

  datatype Event = NilEvent | Event(pre: Row, post: Row)

  /** The column ids by position, and the handle and unique keys as column positions. */
  datatype TableInfo = TableInfo(ids: seq<nat>, keys: seq<seq<nat>>)

  /** How column values are printed for comparison. */
  type Printer = Value -> string

  predicate IsDelete(e: Event) {
    e.Event? && e.pre != [] && e.post == []
  }

  predicate IsInsert(e: Event) {
    e.Event? && e.pre == [] && e.post != []
  }

  predicate IsUpdate(e: Event) {
    e.Event? && e.pre != [] && e.post != []
  }

  function DmlOrder(e: Event): nat {
    if IsDelete(e) then 1 else if IsUpdate(e) then 2 else 3
  }

  /** The column has the unique key or the handle key flag. */
  predicate IsKeyColumn(info: TableInfo, id: nat) {
    exists k, j | 0 <= k < |info.keys| && 0 <= j < |info.keys[k]| ::
      info.keys[k][j] < |info.ids| && info.ids[info.keys[k][j]] == id
  }

  predicate IsKeyCell(info: TableInfo, c: Cell) {
    c.Cell? && IsKeyColumn(info, c.id)
  }

  /** Some key column prints differently before and after. */
  predicate ShouldSplit(info: TableInfo, show: Printer, e: Event)
    requires IsUpdate(e) && |e.pre| == |e.post|
  {
    exists i | 0 <= i < |e.post| :: KeyCellChanged(info, show, e, i)
  }

  predicate KeyCellChanged(info: TableInfo, show: Printer, e: Event, i: nat)
    requires IsUpdate(e) && |e.pre| == |e.post| && i < |e.post|
  {
    && IsKeyCell(info, e.post[i]) && IsKeyCell(info, e.pre[i])
    && show(e.post[i].value) != show(e.pre[i].value)
  }

  /** What one event of the transaction becomes. */
  function Pieces(info: TableInfo, show: Printer, e: Event): seq<Event>
    requires IsUpdate(e) ==> |e.pre| == |e.post|
  {
    if e.NilEvent? || (e.pre == [] && e.post == []) then []
    else if IsUpdate(e) && ShouldSplit(info, show, e) then [Event(e.pre, []), Event([], e.post)]
    else [e]
  }

  predicate Aligned(events: seq<Event>) {
    forall i | 0 <= i < |events| :: IsUpdate(events[i]) ==> |events[i].pre| == |events[i].post|
  }

  function SplitAll(info: TableInfo, show: Printer, events: seq<Event>): seq<Event>
    requires Aligned(events)
  {
    if events == [] then []
    else SplitAll(info, show, events[..|events| - 1]) + Pieces(info, show, events[|events| - 1])
  }

  predicate SplitsAny(info: TableInfo, show: Printer, events: seq<Event>)
    requires Aligned(events)
  {
    exists i | 0 <= i < |events| :: IsUpdate(events[i]) && ShouldSplit(info, show, events[i])
  }

  predicate Sorted(rows: seq<Event>) {
    forall i, j | 0 <= i < j < |rows| :: DmlOrder(rows[i]) <= DmlOrder(rows[j])
  }

  // ---------------------------------------------------------------------------------------------
  // The code
  // ---------------------------------------------------------------------------------------------

  method ShouldSplitUpdateEvent(info: TableInfo, show: Printer, e: Event) returns (r: bool)
    requires IsUpdate(e) && |e.pre| == |e.post|
    ensures r == ShouldSplit(info, show, e)
  {
    for i := 0 to |e.post|
      invariant forall j | 0 <= j < i :: !KeyCellChanged(info, show, e, j)
    {
      if KeyCellChanged(info, show, e, i) {
        return true;
      }
    }
    return false;
  }

  lemma InsertedAt(rows: seq<Event>, i: nat, e: Event)
    requires Sorted(rows) && i <= |rows|
    requires i == 0 || DmlOrder(rows[i - 1]) <= DmlOrder(e)
    requires i == |rows| || DmlOrder(rows[i]) > DmlOrder(e)
    ensures Sorted(rows[..i] + [e] + rows[i..])
  {
    var r := rows[..i] + [e] + rows[i..];
    assert forall j | 0 <= j < i :: DmlOrder(rows[j]) <= DmlOrder(e);
    assert forall j | 0 <= j < |r| :: r[j] == if j < i then rows[j] else if j == i then e else rows[j - 1];
  }

  lemma InsertedKeepsRows(rows: seq<Event>, i: nat, e: Event)
    requires i <= |rows|
    ensures multiset(rows[..i] + [e] + rows[i..]) == multiset(rows) + multiset{e}
  {
    assert rows == rows[..i] + rows[i..];
  }

  /** One insertion of an insertion sort; the library's sort is only known to sort. */
  method InsertRow(rows: seq<Event>, e: Event) returns (r: seq<Event>)
    requires Sorted(rows)
    ensures Sorted(r) && multiset(r) == multiset(rows) + multiset{e}
  {
    var i := |rows|;
    while i > 0 && DmlOrder(rows[i - 1]) > DmlOrder(e)
      invariant 0 <= i <= |rows|
      invariant i == |rows| || DmlOrder(rows[i]) > DmlOrder(e)
    {
      i := i - 1;
    }
    InsertedAt(rows, i, e);
    InsertedKeepsRows(rows, i, e);
    r := rows[..i] + [e] + rows[i..];
  }

  method SortRows(rows: seq<Event>) returns (r: seq<Event>)
    ensures Sorted(r) && multiset(r) == multiset(rows)
  {
    r := [];
    for i := 0 to |rows|
      invariant Sorted(r) && multiset(r) == multiset(rows[..i])
    {
      assert rows[..i + 1] == rows[..i] + [rows[i]];
      r := InsertRow(r, rows[i]);
    }
    assert rows[..|rows|] == rows;
  }

  /** What the transaction's rows may become: sorted if something was split, in order otherwise. */
  ghost predicate IsOutput(info: TableInfo, show: Printer, events: seq<Event>, out: seq<Event>)
    requires Aligned(events)
  {
    if SplitsAny(info, show, events)
    then Sorted(out) && multiset(out) == multiset(SplitAll(info, show, events))
    else out == SplitAll(info, show, events)
  }

  method TrySplitAndSort(info: TableInfo, show: Printer, events: seq<Event>) returns (rows: seq<Event>)
    requires Aligned(events)
    ensures IsOutput(info, show, events, rows)
  {
    rows := [];
    var split := false;
    for i := 0 to |events|
      invariant rows == SplitAll(info, show, events[..i])
      invariant split == SplitsAny(info, show, events[..i])
    {
      var e := events[i];
      assert events[..i + 1][..i] == events[..i];
      if e.NilEvent? || (e.pre == [] && e.post == []) {
        continue;
      }
      var s := false;
      if IsUpdate(e) {
        s := ShouldSplitUpdateEvent(info, show, e);
      }
      if s {
        split := true;
        assert IsUpdate(events[..i + 1][i]) && ShouldSplit(info, show, events[..i + 1][i]);
        rows := rows + [Event(e.pre, []), Event([], e.post)];
      } else {
        rows := rows + [e];
      }
    }
    assert events[..|events|] == events;
    if split {
      rows := SortRows(rows);
    }
  }

  // ---------------------------------------------------------------------------------------------
  // Running events on a table
  // ---------------------------------------------------------------------------------------------

  /** The values of a key; a row with a NULL or absent key column takes part in no conflict. */
  function KeyOf(row: Row, key: seq<nat>): Option<seq<Value>> {
    if key == [] then Some([])
    else
      var n := |key| - 1;
      var rest := KeyOf(row, key[..n]);
      if rest.None? || key[n] >= |row| || row[key[n]].Nil? || row[key[n]].value.Null? then None
      else Some(rest.value + [row[key[n]].value])
  }

  /** The two rows cannot be in the table together. */
  predicate Clash(info: TableInfo, a: Row, b: Row) {
    exists k | 0 <= k < |info.keys| :: KeyOf(a, info.keys[k]).Some? && KeyOf(a, info.keys[k]) == KeyOf(b, info.keys[k])
  }

  predicate Taken(info: TableInfo, table: seq<Row>, row: Row) {
    exists i | 0 <= i < |table| :: Clash(info, row, table[i])
  }

  /** One event: the old row must be there, and the keys of the new one free. */
  function Apply(info: TableInfo, table: seq<Row>, e: Event): Option<seq<Row>> {
    if e.NilEvent? then Some(table)
    else if e.pre != [] && e.pre !in table then None
    else
      var rest := if e.pre != [] then RemoveOne(table, e.pre) else table;
      if e.post == [] then Some(rest)
      else if Taken(info, rest, e.post) then None
      else Some(rest + [e.post])
  }

  function Run(info: TableInfo, table: seq<Row>, events: seq<Event>): Option<seq<Row>> {
    if events == [] then Some(table)
    else
      var before := Run(info, table, events[..|events| - 1]);
      if before.None? then None else Apply(info, before.value, events[|events| - 1])
  }

  function HasKey(key: seq<nat>, v: seq<Value>): Row -> nat {
    (row: Row) => if KeyOf(row, key) == Some(v) then 1 else 0
  }

  ghost predicate KeysUnique(info: TableInfo, table: seq<Row>) {
    forall k, v | 0 <= k < |info.keys| :: Sum(table, HasKey(info.keys[k], v)) <= 1
  }

  /** A measure of rows, counted on the old or on the new row of an event. */
  function OnPre(f: Row -> nat): Event -> nat {
    (e: Event) => if e.Event? && e.pre != [] then f(e.pre) else 0
  }

  function OnPost(f: Row -> nat): Event -> nat {
    (e: Event) => if e.Event? && e.post != [] then f(e.post) else 0
  }

  function Pres(events: seq<Event>): seq<Row> {
    if events == [] then []
    else
      var e := events[|events| - 1];
      Pres(events[..|events| - 1]) + if e.Event? && e.pre != [] then [e.pre] else []
  }

  function Posts(events: seq<Event>): seq<Row> {
    if events == [] then []
    else
      var e := events[|events| - 1];
      Posts(events[..|events| - 1]) + if e.Event? && e.post != [] then [e.post] else []
  }

  /** The transaction takes table `t0` to `t1`: its old rows are there, its new rows replace them, and
      both tables respect their keys. */
  ghost predicate Consistent(info: TableInfo, t0: seq<Row>, events: seq<Event>, t1: seq<Row>) {
    && KeysUnique(info, t0) && KeysUnique(info, t1)
    && multiset(Pres(events)) <= multiset(t0)
    && multiset(t1 + Pres(events)) == multiset(t0 + Posts(events))
  }

  lemma {:induction false} SumPres(events: seq<Event>, f: Row -> nat)
    ensures Sum(Pres(events), f) == Sum(events, OnPre(f))
  {
    if events != [] {
      var e := events[|events| - 1];
      SumPres(events[..|events| - 1], f);
      if e.Event? && e.pre != [] {
        SumAppend(Pres(events[..|events| - 1]), e.pre, f);
      } else {
        assert Pres(events) == Pres(events[..|events| - 1]);
      }
    }
  }

  lemma {:induction false} SumPosts(events: seq<Event>, f: Row -> nat)
    ensures Sum(Posts(events), f) == Sum(events, OnPost(f))
  {
    if events != [] {
      var e := events[|events| - 1];
      SumPosts(events[..|events| - 1], f);
      if e.Event? && e.post != [] {
        SumAppend(Posts(events[..|events| - 1]), e.post, f);
      } else {
        assert Posts(events) == Posts(events[..|events| - 1]);
      }
    }
  }

  /** The books balance between the two tables, whatever is counted. */
  lemma ConsistentBalance(info: TableInfo, t0: seq<Row>, events: seq<Event>, t1: seq<Row>, f: Row -> nat)
    requires Consistent(info, t0, events, t1)
    ensures Sum(t1, f) + Sum(events, OnPre(f)) == Sum(t0, f) + Sum(events, OnPost(f))
  {
    SumPermutation(t1 + Pres(events), t0 + Posts(events), f);
    SumConcat(t1, Pres(events), f);
    SumConcat(t0, Posts(events), f);
    SumPres(events, f);
    SumPosts(events, f);
  }

  lemma ApplyBalance(info: TableInfo, table: seq<Row>, e: Event, f: Row -> nat)
    requires Apply(info, table, e).Some?
    ensures Sum(Apply(info, table, e).value, f) + OnPre(f)(e) == Sum(table, f) + OnPost(f)(e)
  {
    if e.Event? {
      if e.pre != [] {
        SumRemove(table, e.pre, f);
      }
      if e.post != [] {
        SumAppend(if e.pre != [] then RemoveOne(table, e.pre) else table, e.post, f);
      }
    }
  }

  lemma {:induction false} RunBalance(info: TableInfo, t0: seq<Row>, events: seq<Event>, f: Row -> nat)
    requires Run(info, t0, events).Some?
    ensures Sum(Run(info, t0, events).value, f) + Sum(events, OnPre(f)) == Sum(t0, f) + Sum(events, OnPost(f))
  {
    if events != [] {
      var n := |events| - 1;
      RunBalance(info, t0, events[..n], f);
      ApplyBalance(info, Run(info, t0, events[..n]).value, events[n], f);
    }
  }

  /** An event from position `n` on counts beside those before. */
  lemma CountsBeyond(events: seq<Event>, n: nat, j: nat, f: Event -> nat)
    requires n <= j < |events|
    ensures Sum(events[..n], f) + f(events[j]) <= Sum(events, f)
  {
    var head, tail := events[..n], events[n..];
    assert events == head + tail;
    SumConcat(head, tail, f);
    SumHas(tail, j - n, f);
  }

  /** An old row that is not yet consumed is still in the table. */
  lemma OldRowStillThere(info: TableInfo, t0: seq<Row>, events: seq<Event>, t1: seq<Row>, n: nat, j: nat)
    requires Consistent(info, t0, events, t1) && n <= j < |events|
    requires Run(info, t0, events[..n]).Some? && events[j].Event? && events[j].pre != []
    ensures events[j].pre in Run(info, t0, events[..n]).value
  {
    var r, t := events[j].pre, Run(info, t0, events[..n]).value;
    RunBalance(info, t0, events[..n], Is(r));
    SumPres(events, Is(r));
    CountIsSum(Pres(events), r);
    CountIsSum(t0, r);
    CountsBeyond(events, n, j, OnPre(Is(r)));
    CountIsSum(t, r);
  }

  // ---------------------------------------------------------------------------------------------
  // Which orders work
  // ---------------------------------------------------------------------------------------------

  predicate KeepsKeys(info: TableInfo, e: Event) {
    IsUpdate(e) ==> forall k | 0 <= k < |info.keys| :: KeyOf(e.pre, info.keys[k]) == KeyOf(e.post, info.keys[k])
  }

  /** What comes out of splitting: real events, and updates that keep every key. */
  predicate Settled(info: TableInfo, events: seq<Event>) {
    forall i | 0 <= i < |events| ::
      (IsDelete(events[i]) || IsUpdate(events[i]) || IsInsert(events[i])) && KeepsKeys(info, events[i])
  }

  /** No insert comes before a delete of a row that still holds one of its keys. */
  predicate InsertsAfterDeletes(info: TableInfo, events: seq<Event>) {
    forall i, j | 0 <= i < j < |events| && IsInsert(events[i]) && IsDelete(events[j]) ::
      !Clash(info, events[i].post, events[j].pre)
  }

  lemma DeleteWorks(info: TableInfo, table: seq<Row>, e: Event)
    requires IsDelete(e) && e.pre in table && KeysUnique(info, table)
    ensures Apply(info, table, e).Some? && KeysUnique(info, Apply(info, table, e).value)
  {
    forall k, v | 0 <= k < |info.keys|
      ensures Sum(RemoveOne(table, e.pre), HasKey(info.keys[k], v)) <= 1
    {
      SumRemove(table, e.pre, HasKey(info.keys[k], v));
      assert Sum(table, HasKey(info.keys[k], v)) <= 1;
    }
  }

  /** A row whose keys are all free is not taken. */
  lemma FreeKeysNotTaken(info: TableInfo, table: seq<Row>, row: Row)
    requires forall k, v | 0 <= k < |info.keys| ::
               KeyOf(row, info.keys[k]) == Some(v) ==> Sum(table, HasKey(info.keys[k], v)) == 0
    ensures !Taken(info, table, row)
  {
    forall i, k | 0 <= i < |table| && 0 <= k < |info.keys| && KeyOf(row, info.keys[k]).Some?
      ensures KeyOf(row, info.keys[k]) != KeyOf(table[i], info.keys[k])
    {
      var v := KeyOf(row, info.keys[k]).value;
      SumHas(table, i, HasKey(info.keys[k], v));
      assert Sum(table, HasKey(info.keys[k], v)) == 0;
    }
  }

  lemma UpdateWorks(info: TableInfo, table: seq<Row>, e: Event)
    requires IsUpdate(e) && KeepsKeys(info, e) && e.pre in table && KeysUnique(info, table)
    ensures Apply(info, table, e).Some? && KeysUnique(info, Apply(info, table, e).value)
  {
    var rest := RemoveOne(table, e.pre);
    forall k, v | 0 <= k < |info.keys|
      ensures Sum(rest + [e.post], HasKey(info.keys[k], v)) <= 1
      ensures KeyOf(e.post, info.keys[k]) == Some(v) ==> Sum(rest, HasKey(info.keys[k], v)) == 0
    {
      SumRemove(table, e.pre, HasKey(info.keys[k], v));
      SumAppend(rest, e.post, HasKey(info.keys[k], v));
      assert Sum(table, HasKey(info.keys[k], v)) <= 1;
    }
    FreeKeysNotTaken(info, rest, e.post);
  }

  /** If no delete still to come frees a key, the keys of a new row are free already. */
  lemma KeyIsFree(info: TableInfo, t0: seq<Row>, events: seq<Event>, t1: seq<Row>, n: nat, k: nat, v: seq<Value>)
    requires Consistent(info, t0, events, t1) && Settled(info, events) && InsertsAfterDeletes(info, events)
    requires n < |events| && IsInsert(events[n]) && Run(info, t0, events[..n]).Some?
    requires k < |info.keys| && KeyOf(events[n].post, info.keys[k]) == Some(v)
    ensures Sum(Run(info, t0, events[..n]).value, HasKey(info.keys[k], v)) == 0
  {
    var f := HasKey(info.keys[k], v);
    RunBalance(info, t0, events[..n], f);
    ConsistentBalance(info, t0, events, t1, f);
    SumAround(events, n, OnPre(f));
    SumAround(events, n, OnPost(f));
    LaterEventsGain(info, events, n, k, v);
    assert Sum(t1, f) <= 1;
  }

  /** After an insert, later events never lower the count of one of its keys. */
  lemma LaterEventsGain(info: TableInfo, events: seq<Event>, n: nat, k: nat, v: seq<Value>)
    requires Settled(info, events) && InsertsAfterDeletes(info, events) && n < |events| && IsInsert(events[n])
    requires k < |info.keys| && KeyOf(events[n].post, info.keys[k]) == Some(v)
    ensures Sum(events[n + 1..], OnPre(HasKey(info.keys[k], v))) <= Sum(events[n + 1..], OnPost(HasKey(info.keys[k], v)))
  {
    var f, later := HasKey(info.keys[k], v), events[n + 1..];
    forall e | e in later
      ensures OnPre(f)(e) <= OnPost(f)(e)
    {
      var j :| n + 1 <= j < |events| && events[j] == e;
      assert IsDelete(e) ==> !Clash(info, events[n].post, e.pre);
    }
    SumMonotone(later, OnPre(f), OnPost(f));
  }

  lemma InsertWorks(info: TableInfo, t0: seq<Row>, events: seq<Event>, t1: seq<Row>, n: nat)
    requires Consistent(info, t0, events, t1) && Settled(info, events) && InsertsAfterDeletes(info, events)
    requires n < |events| && IsInsert(events[n]) && Run(info, t0, events[..n]).Some?
    requires KeysUnique(info, Run(info, t0, events[..n]).value)
    ensures Apply(info, Run(info, t0, events[..n]).value, events[n]).Some?
    ensures KeysUnique(info, Apply(info, Run(info, t0, events[..n]).value, events[n]).value)
  {
    var table, e := Run(info, t0, events[..n]).value, events[n];
    forall k, v | 0 <= k < |info.keys|
      ensures Sum(table + [e.post], HasKey(info.keys[k], v)) <= 1
      ensures KeyOf(e.post, info.keys[k]) == Some(v) ==> Sum(table, HasKey(info.keys[k], v)) == 0
    {
      SumAppend(table, e.post, HasKey(info.keys[k], v));
      assert Sum(table, HasKey(info.keys[k], v)) <= 1;
      if KeyOf(e.post, info.keys[k]) == Some(v) {
        KeyIsFree(info, t0, events, t1, n, k, v);
      }
    }
    FreeKeysNotTaken(info, table, e.post);
  }

  lemma {:induction false} RunWorks(info: TableInfo, t0: seq<Row>, events: seq<Event>, t1: seq<Row>, n: nat)
    requires Consistent(info, t0, events, t1) && Settled(info, events) && InsertsAfterDeletes(info, events) && n <= |events|
    ensures Run(info, t0, events[..n]).Some? && KeysUnique(info, Run(info, t0, events[..n]).value)
    decreases n
  {
    if n > 0 {
      RunWorks(info, t0, events, t1, n - 1);
      assert events[..n][..n - 1] == events[..n - 1];
      EventWorks(info, t0, events, t1, n - 1);
    }
  }

  lemma EventWorks(info: TableInfo, t0: seq<Row>, events: seq<Event>, t1: seq<Row>, n: nat)
    requires Consistent(info, t0, events, t1) && Settled(info, events) && InsertsAfterDeletes(info, events) && n < |events|
    requires Run(info, t0, events[..n]).Some? && KeysUnique(info, Run(info, t0, events[..n]).value)
    ensures Apply(info, Run(info, t0, events[..n]).value, events[n]).Some?
    ensures KeysUnique(info, Apply(info, Run(info, t0, events[..n]).value, events[n]).value)
  {
    var table, e := Run(info, t0, events[..n]).value, events[n];
    if IsInsert(e) {
      InsertWorks(info, t0, events, t1, n);
    } else {
      OldRowStillThere(info, t0, events, t1, n, n);
      if IsDelete(e) {
        DeleteWorks(info, table, e);
      } else {
        UpdateWorks(info, table, e);
      }
    }
  }

  lemma {:induction false} FailureStays(info: TableInfo, t0: seq<Row>, events: seq<Event>, n: nat)
    requires n <= |events| && Run(info, t0, events[..n]).None?
    ensures Run(info, t0, events).None?
    decreases |events|
  {
    if n < |events| {
      assert events[..|events| - 1][..n] == events[..n];
      FailureStays(info, t0, events[..|events| - 1], n);
    } else {
      assert events[..n] == events;
    }
  }

  lemma EarlyInsertFails(info: TableInfo, t0: seq<Row>, events: seq<Event>, t1: seq<Row>, i: nat, j: nat)
    requires Consistent(info, t0, events, t1) && i < j < |events| && IsInsert(events[i]) && IsDelete(events[j])
    requires Clash(info, events[i].post, events[j].pre)
    ensures Run(info, t0, events).None?
  {
    if Run(info, t0, events[..i]).Some? {
      OldRowStillThere(info, t0, events, t1, i, j);
      assert Taken(info, Run(info, t0, events[..i]).value, events[i].post);
      assert events[..i + 1][..i] == events[..i];
      FailureStays(info, t0, events, i + 1);
    } else {
      FailureStays(info, t0, events, i);
    }
  }

  /** Running settled events in some order gives the table of the transaction exactly when no insert
      precedes the delete of a row that holds one of its keys. */
  lemma OrderWorksIff(info: TableInfo, t0: seq<Row>, events: seq<Event>, t1: seq<Row>)
    requires Consistent(info, t0, events, t1) && Settled(info, events)
    ensures Run(info, t0, events).Some? <==> InsertsAfterDeletes(info, events)
    ensures Run(info, t0, events).Some? ==> multiset(Run(info, t0, events).value) == multiset(t1)
  {
    if InsertsAfterDeletes(info, events) {
      RunWorks(info, t0, events, t1, |events|);
      assert events[..|events|] == events;
    } else {
      var i, j :| 0 <= i < j < |events| && IsInsert(events[i]) && IsDelete(events[j])
                  && Clash(info, events[i].post, events[j].pre);
      EarlyInsertFails(info, t0, events, t1, i, j);
    }
    if Run(info, t0, events).Some? {
      var t := Run(info, t0, events).value;
      forall r
        ensures multiset(t)[r] == multiset(t1)[r]
      {
        RunBalance(info, t0, events, Is(r));
        ConsistentBalance(info, t0, events, t1, Is(r));
        CountIsSum(t, r);
        CountIsSum(t1, r);
      }
    }
  }

  // ---------------------------------------------------------------------------------------------
  // What splitting and sorting does to a transaction
  // ---------------------------------------------------------------------------------------------

  predicate Shaped(info: TableInfo, row: Row) {
    |row| == |info.ids| && forall i | 0 <= i < |row| :: row[i].Cell? ==> row[i].id == info.ids[i]
  }

  /** The old and the new row have data in the same columns, and key values that print the same are. */
  predicate UpdateOk(info: TableInfo, show: Printer, e: Event)
    requires IsUpdate(e)
  {
    && Shaped(info, e.pre) && Shaped(info, e.post)
    && forall i | 0 <= i < |e.pre| ::
         && (e.pre[i].Nil? <==> e.post[i].Nil?)
         && (IsKeyCell(info, e.pre[i]) && show(e.pre[i].value) == show(e.post[i].value) ==> e.pre[i].value == e.post[i].value)
  }

  predicate TxnOk(info: TableInfo, show: Printer, events: seq<Event>) {
    forall i | 0 <= i < |events| :: IsUpdate(events[i]) ==> UpdateOk(info, show, events[i])
  }

  lemma {:induction false} SameKeyColumns(info: TableInfo, show: Printer, e: Event, k: nat, m: nat)
    requires IsUpdate(e) && UpdateOk(info, show, e) && !ShouldSplit(info, show, e)
    requires k < |info.keys| && m <= |info.keys[k]|
    ensures KeyOf(e.pre, info.keys[k][..m]) == KeyOf(e.post, info.keys[k][..m])
    decreases m
  {
    if m > 0 {
      var key := info.keys[k];
      SameKeyColumns(info, show, e, k, m - 1);
      assert key[..m][..m - 1] == key[..m - 1];
      var p := key[m - 1];
      if p < |e.pre| && e.pre[p].Cell? {
        assert IsKeyColumn(info, info.ids[p]);
        assert !KeyCellChanged(info, show, e, p);
      }
    }
  }

  /** An update that is not split keeps every handle and unique key. */
  lemma NotSplitKeepsKeys(info: TableInfo, show: Printer, e: Event)
    requires IsUpdate(e) && UpdateOk(info, show, e) && !ShouldSplit(info, show, e)
    ensures KeepsKeys(info, e)
  {
    forall k | 0 <= k < |info.keys|
      ensures KeyOf(e.pre, info.keys[k]) == KeyOf(e.post, info.keys[k])
    {
      SameKeyColumns(info, show, e, k, |info.keys[k]|);
      assert info.keys[k][..|info.keys[k]|] == info.keys[k];
    }
  }

  /** The column ids of a table are distinct. */
  predicate DistinctIds(info: TableInfo) {
    forall i, j | 0 <= i < j < |info.ids| :: info.ids[i] != info.ids[j]
  }

  predicate IsKeyPosition(info: TableInfo, p: nat) {
    exists k | 0 <= k < |info.keys| :: p in info.keys[k]
  }

  /** An update becomes a delete and an insert if and only if some column of a handle or unique key has data
      before and after and prints differently; otherwise it is left whole. */
  lemma SplitIff(info: TableInfo, show: Printer, e: Event)
    requires IsUpdate(e) && Shaped(info, e.pre) && Shaped(info, e.post) && DistinctIds(info)
    ensures Pieces(info, show, e) ==
            if exists p | 0 <= p < |info.ids| ::
                 && IsKeyPosition(info, p) && e.pre[p].Cell? && e.post[p].Cell?
                 && show(e.pre[p].value) != show(e.post[p].value)
            then [Event(e.pre, []), Event([], e.post)] else [e]
  {
    forall p | 0 <= p < |info.ids|
      ensures KeyCellChanged(info, show, e, p) <==>
              && IsKeyPosition(info, p) && e.pre[p].Cell? && e.post[p].Cell?
              && show(e.pre[p].value) != show(e.post[p].value)
    {
      KeyColumnIff(info, p);
    }
  }

  lemma KeyColumnIff(info: TableInfo, p: nat)
    requires DistinctIds(info) && p < |info.ids|
    ensures IsKeyColumn(info, info.ids[p]) <==> IsKeyPosition(info, p)
  {
    if IsKeyPosition(info, p) {
      var k :| 0 <= k < |info.keys| && p in info.keys[k];
      var j :| 0 <= j < |info.keys[k]| && info.keys[k][j] == p;
      assert info.ids[info.keys[k][j]] == info.ids[p];
    }
    if IsKeyColumn(info, info.ids[p]) {
      var k, j :| 0 <= k < |info.keys| && 0 <= j < |info.keys[k]| && info.keys[k][j] < |info.ids|
                  && info.ids[info.keys[k][j]] == info.ids[p];
      assert info.keys[k][j] == p;
    }
  }

  /** An update that keeps every key column is left whole. */
  lemma SameKeysAreNotSplit(info: TableInfo, show: Printer, e: Event)
    requires IsUpdate(e) && Shaped(info, e.pre) && Shaped(info, e.post) && DistinctIds(info)
    requires forall p | 0 <= p < |info.ids| :: IsKeyPosition(info, p) ==> e.pre[p] == e.post[p]
    ensures Pieces(info, show, e) == [e]
  {
    SplitIff(info, show, e);
  }

  lemma {:induction false} SplitAllIsSettled(info: TableInfo, show: Printer, events: seq<Event>)
    requires TxnOk(info, show, events)
    ensures Settled(info, SplitAll(info, show, events))
  {
    if events != [] {
      var n := |events| - 1;
      SplitAllIsSettled(info, show, events[..n]);
      if IsUpdate(events[n]) && !ShouldSplit(info, show, events[n]) {
        NotSplitKeepsKeys(info, show, events[n]);
      }
    }
  }

  /** In the output of a transaction with a split only deletes precede a delete, and only inserts follow an
      insert. */
  lemma OutputOrder(info: TableInfo, show: Printer, events: seq<Event>, out: seq<Event>, i: nat, j: nat)
    requires TxnOk(info, show, events) && SplitsAny(info, show, events) && IsOutput(info, show, events, out)
    requires i < j < |out|
    ensures out[i].Event? && out[j].Event?
    ensures out[j].post == [] ==> out[i].post == []
    ensures out[i].pre == [] ==> out[j].pre == []
  {
    SplitAllIsSettled(info, show, events);
    OutputIsReal(info, SplitAll(info, show, events), out, i);
    OutputIsReal(info, SplitAll(info, show, events), out, j);
    assert DmlOrder(out[i]) <= DmlOrder(out[j]);
  }

  lemma OutputIsReal(info: TableInfo, all: seq<Event>, out: seq<Event>, i: nat)
    requires Settled(info, all) && multiset(out) == multiset(all) && i < |out|
    ensures IsDelete(out[i]) || IsUpdate(out[i]) || IsInsert(out[i])
  {
    assert out[i] in multiset(all);
    var j :| 0 <= j < |all| && all[j] == out[i];
  }

  /** Splitting neither adds nor loses an old or a new row. */
  lemma {:induction false} SplitAllKeepsRows(info: TableInfo, show: Printer, events: seq<Event>, f: Row -> nat)
    requires Aligned(events)
    ensures Sum(SplitAll(info, show, events), OnPre(f)) == Sum(events, OnPre(f))
    ensures Sum(SplitAll(info, show, events), OnPost(f)) == Sum(events, OnPost(f))
  {
    if events != [] {
      var n := |events| - 1;
      SplitAllKeepsRows(info, show, events[..n], f);
      var head, pieces := SplitAll(info, show, events[..n]), Pieces(info, show, events[n]);
      SumConcat(head, pieces, OnPre(f));
      SumConcat(head, pieces, OnPost(f));
      PiecesKeepRows(info, show, events[n], f);
    }
  }

  lemma PiecesKeepRows(info: TableInfo, show: Printer, e: Event, f: Row -> nat)
    requires IsUpdate(e) ==> |e.pre| == |e.post|
    ensures Sum(Pieces(info, show, e), OnPre(f)) == OnPre(f)(e)
    ensures Sum(Pieces(info, show, e), OnPost(f)) == OnPost(f)(e)
  {
    var pieces := Pieces(info, show, e);
    if pieces != [] {
      SumHead(pieces, OnPre(f));
      SumHead(pieces, OnPost(f));
      if |pieces| == 2 {
        SumHead(pieces[1..], OnPre(f));
        SumHead(pieces[1..], OnPost(f));
      }
    }
  }

  /** Events with the same old and new rows describe the same transaction. */
  lemma ConsistentTransfers(info: TableInfo, t0: seq<Row>, events: seq<Event>, out: seq<Event>, t1: seq<Row>)
    requires Consistent(info, t0, events, t1)
    requires forall r: Row :: Sum(out, OnPre(Is(r))) == Sum(events, OnPre(Is(r)))
    requires forall r: Row :: Sum(out, OnPost(Is(r))) == Sum(events, OnPost(Is(r)))
    ensures Consistent(info, t0, out, t1)
  {
    forall r: Row
      ensures multiset(Pres(out))[r] == multiset(Pres(events))[r]
      ensures multiset(Posts(out))[r] == multiset(Posts(events))[r]
    {
      assert Sum(out, OnPre(Is(r))) == Sum(events, OnPre(Is(r)));
      assert Sum(out, OnPost(Is(r))) == Sum(events, OnPost(Is(r)));
      SumPres(out, Is(r));
      SumPres(events, Is(r));
      SumPosts(out, Is(r));
      SumPosts(events, Is(r));
      CountIsSum(Pres(out), r);
      CountIsSum(Pres(events), r);
      CountIsSum(Posts(out), r);
      CountIsSum(Posts(events), r);
    }
    assert multiset(Pres(out)) == multiset(Pres(events));
    assert multiset(Posts(out)) == multiset(Posts(events));
    assert multiset(t1 + Pres(out)) == multiset(t1) + multiset(Pres(out)) == multiset(t1 + Pres(events));
  }

  lemma OutputIsConsistent(info: TableInfo, show: Printer, t0: seq<Row>, events: seq<Event>, out: seq<Event>, t1: seq<Row>)
    requires TxnOk(info, show, events) && Consistent(info, t0, events, t1)
    requires multiset(out) == multiset(SplitAll(info, show, events))
    ensures Consistent(info, t0, out, t1) && Settled(info, out)
  {
    var all := SplitAll(info, show, events);
    forall r: Row
      ensures Sum(out, OnPre(Is(r))) == Sum(events, OnPre(Is(r)))
      ensures Sum(out, OnPost(Is(r))) == Sum(events, OnPost(Is(r)))
    {
      SumPermutation(out, all, OnPre(Is(r)));
      SumPermutation(out, all, OnPost(Is(r)));
      SplitAllKeepsRows(info, show, events, Is(r));
    }
    ConsistentTransfers(info, t0, events, out, t1);
    SplitAllIsSettled(info, show, events);
    forall i | 0 <= i < |out|
      ensures (IsDelete(out[i]) || IsUpdate(out[i]) || IsInsert(out[i])) && KeepsKeys(info, out[i])
    {
      assert out[i] in multiset(all);
      var j :| 0 <= j < |all| && all[j] == out[i];
    }
  }

  /** If some update of a consistent transaction is split, running the output in order succeeds: every
      old row is found, every insert finds its keys free, and the table ends as the transaction left it. */
  lemma SplitAndSortPreservesMeaning(info: TableInfo, show: Printer, t0: seq<Row>, events: seq<Event>,
                                     out: seq<Event>, t1: seq<Row>)
    requires TxnOk(info, show, events) && Consistent(info, t0, events, t1)
    requires SplitsAny(info, show, events) && IsOutput(info, show, events, out)
    ensures Run(info, t0, out).Some? && multiset(Run(info, t0, out).value) == multiset(t1)
  {
    OutputIsConsistent(info, show, t0, events, out, t1);
    OrderWorksIff(info, t0, out, t1);
  }

  /** If no update is split the order stays as it was, and works exactly when no insert precedes the
      delete of a row that holds one of its keys. */
  lemma UnsplitOrderWorksIff(info: TableInfo, show: Printer, t0: seq<Row>, events: seq<Event>,
                             out: seq<Event>, t1: seq<Row>)
    requires TxnOk(info, show, events) && Consistent(info, t0, events, t1)
    requires !SplitsAny(info, show, events) && IsOutput(info, show, events, out)
    ensures Run(info, t0, out).Some? <==> InsertsAfterDeletes(info, events)
    ensures Run(info, t0, out).Some? ==> multiset(Run(info, t0, out).value) == multiset(t1)
  {
    OutputIsConsistent(info, show, t0, events, out, t1);
    OrderWorksIff(info, t0, out, t1);
    SameOrder(info, show, events);
  }

  /** Without splits only nil and empty events go, so inserts and deletes keep their order. */
  lemma {:induction false} SameOrder(info: TableInfo, show: Printer, events: seq<Event>)
    requires Aligned(events) && !SplitsAny(info, show, events)
    ensures InsertsAfterDeletes(info, SplitAll(info, show, events)) <==> InsertsAfterDeletes(info, events)
  {
    assert SplitAll(info, show, events) == Real(events) by {
      UnsplitIsReal(info, show, events);
    }
    RealOrder(info, events);
  }

  function Real(events: seq<Event>): seq<Event> {
    if events == [] then []
    else
      var e := events[|events| - 1];
      Real(events[..|events| - 1]) + if e.NilEvent? || (e.pre == [] && e.post == []) then [] else [e]
  }

  lemma {:induction false} UnsplitIsReal(info: TableInfo, show: Printer, events: seq<Event>)
    requires Aligned(events) && !SplitsAny(info, show, events)
    ensures SplitAll(info, show, events) == Real(events)
  {
    if events != [] {
      var n := |events| - 1;
      assert !SplitsAny(info, show, events[..n]);
      UnsplitIsReal(info, show, events[..n]);
      assert !(IsUpdate(events[n]) && ShouldSplit(info, show, events[n]));
    }
  }

  lemma {:induction false} RealMembers(events: seq<Event>, e: Event)
    requires !e.NilEvent? && (e.pre != [] || e.post != [])
    ensures e in Real(events) <==> e in events
  {
    if events != [] {
      RealMembers(events[..|events| - 1], e);
    }
  }

  lemma {:induction false} RealOrder(info: TableInfo, events: seq<Event>)
    ensures InsertsAfterDeletes(info, Real(events)) <==> InsertsAfterDeletes(info, events)
  {
    if events != [] {
      var n := |events| - 1;
      var last := events[n];
      RealOrder(info, events[..n]);
      LastOrder(info, events[..n], last);
      assert events == events[..n] + [last];
      if last.NilEvent? || (last.pre == [] && last.post == []) {
        assert Real(events) == Real(events[..n]);
      } else {
        LastOrder(info, Real(events[..n]), last);
        forall e
          ensures IsInsert(e) ==> (e in Real(events[..n]) <==> e in events[..n])
        {
          if IsInsert(e) {
            RealMembers(events[..n], e);
          }
        }
      }
    }
  }

  lemma LastOrder(info: TableInfo, events: seq<Event>, last: Event)
    ensures InsertsAfterDeletes(info, events + [last]) <==>
            && InsertsAfterDeletes(info, events)
            && (IsDelete(last) ==> forall e <- events :: IsInsert(e) ==> !Clash(info, e.post, last.pre))
  {
    var all := events + [last];
    assert forall i | 0 <= i < |events| :: all[i] == events[i];
    if InsertsAfterDeletes(info, all) {
      forall i, j | 0 <= i < j < |events| && IsInsert(events[i]) && IsDelete(events[j])
        ensures !Clash(info, events[i].post, events[j].pre)
      {
        assert IsInsert(all[i]) && IsDelete(all[j]);
      }
      forall e | e in events && IsInsert(e) && IsDelete(last)
        ensures !Clash(info, e.post, last.pre)
      {
        var i :| 0 <= i < |events| && events[i] == e;
        assert IsInsert(all[i]) && IsDelete(all[|events|]);
      }
    }
  }

  lemma OneRowIsUnique(info: TableInfo, row: Row)
    ensures KeysUnique(info, [row])
  {
    forall k, v | 0 <= k < |info.keys|
      ensures Sum([row], HasKey(info.keys[k], v)) <= 1
    {
      SumHead([row], HasKey(info.keys[k], v));
    }
  }

  /** Replacing the only row of a table by an insert followed by a delete. */
  lemma ReplaceIsConsistent(info: TableInfo, before: Row, after: Row)
    requires before != [] && after != []
    ensures Consistent(info, [before], [Event([], after), Event(before, [])], [after])
  {
    OneRowIsUnique(info, before);
    OneRowIsUnique(info, after);
    ReplaceRows(before, after);
  }

  lemma ReplaceRows(before: Row, after: Row)
    requires before != [] && after != []
    ensures Pres([Event([], after), Event(before, [])]) == [before]
    ensures Posts([Event([], after), Event(before, [])]) == [after]
  {
    var a, b := Event([], after), Event(before, []);
    var one, two := [a], [a, b];
    assert one[..0] == [] && two[..1] == one;
    assert Pres(one) == Pres(one[..0]) == [];
    assert Posts(one) == Posts(one[..0]) + [after];
  }

  /** Without a split the order may be wrong: a row moves its unique value to a new handle, the insert
      comes first and meets the old row. */
  lemma UnsplitInsertMeetsTakenKey(show: Printer)
    ensures var info := TableInfo([1, 2], [[0], [1]]);
            var before, after := [Cell(1, Val(1)), Cell(2, Val(5))], [Cell(1, Val(2)), Cell(2, Val(5))];
            var events := [Event([], after), Event(before, [])];
            && TxnOk(info, show, events) && Consistent(info, [before], events, [after])
            && !SplitsAny(info, show, events) && Run(info, [before], events).None?
  {
    var info := TableInfo([1, 2], [[0], [1]]);
    var before, after := [Cell(1, Val(1)), Cell(2, Val(5))], [Cell(1, Val(2)), Cell(2, Val(5))];
    var events := [Event([], after), Event(before, [])];
    ReplaceIsConsistent(info, before, after);
    assert KeyOf(after, info.keys[1]) == KeyOf(before, info.keys[1]) && KeyOf(after, info.keys[1]).Some? by {
      assert info.keys[1][..0] == [];
    }
    assert Clash(info, events[0].post, events[1].pre);
    EarlyInsertFails(info, [before], events, [after], 0, 1);
  }
}
