/** What BuildTiDBTableInfoImpl followed by WrapTableInfo gives back, in terms of the columns and the key
    entries it was given. */
module TableRebuild {
  import opened TableInfos

  predicate InRange(e: seq<nat>, n: nat) {
    forall x | 0 <= x < |e| :: e[x] < n
  }

  predicate AllUnique(cols: seq<Column>, e: seq<nat>)
    requires InRange(e, |cols|)
  {
    forall x | 0 <= x < |e| :: cols[e[x]].flag.unique
  }

  predicate AllMultiple(cols: seq<Column>, e: seq<nat>)
    requires InRange(e, |cols|)
  {
    forall x | 0 <= x < |e| :: cols[e[x]].flag.multiple
  }

  predicate AllNotNull(cols: seq<Column>, e: seq<nat>)
    requires InRange(e, |cols|)
  {
    forall x | 0 <= x < |e| :: !cols[e[x]].flag.nullable
  }

  /** The flags of the columns know of the entry: it is primary, or unique, and multiple if it is. */
  predicate EntrySound(cols: seq<Column>, e: seq<nat>) {
    && e != [] && InRange(e, |cols|)
    && (AllPrimary(cols, e) || AllUnique(cols, e)) && (|e| > 1 ==> AllMultiple(cols, e))
  }

  predicate Sound(cols: seq<Column>, entries: seq<seq<nat>>) {
    && (forall p | 0 <= p < |cols| :: cols[p].flag.binary <==> cols[p].charset == "binary")
    && (forall i | 0 <= i < |entries| :: EntrySound(cols, entries[i]))
  }

  /** Every flag but the handle comes back, whatever the handle is. */
  lemma OtherFlagsSurvive(cols: seq<Column>, entries: seq<seq<nat>>, t: Table, h: int, p: nat)
    requires Sound(cols, entries) && IsBuilt(cols, entries, t) && p < |cols|
    ensures FlagOf(t, h, p) == cols[p].flag.(handle := FlagOf(t, h, p).handle)
  {
    assert t.columns[p] == BuiltColumn(cols[p], 100 + p);
    forall i | 0 <= i < |entries|
      ensures t.indices[i] == BuiltIndex(cols, entries, i) && EntrySound(cols, entries[i])
    {
    }
  }

  lemma BuiltVisible(cols: seq<Column>, entries: seq<seq<nat>>, t: Table, p: nat)
    requires EntriesOk(cols, entries) && IsBuilt(cols, entries, t) && p < |cols|
    ensures Visible(t.columns[p]) && t.columns[p].notNull == !cols[p].flag.nullable && t.columns[p].pri == cols[p].flag.primary
  {
    assert t.columns[p] == BuiltColumn(cols[p], 100 + p);
  }

  /** With a primary key the handle is the primary key. */
  lemma PrimaryIsHandle(cols: seq<Column>, entries: seq<seq<nat>>, t: Table, h: int, p: nat)
    requires EntriesOk(cols, entries) && IsBuilt(cols, entries, t) && IsHandle(t, h) && HasPrimary(cols, |cols|) && p < |cols|
    ensures h == PK_IS_HANDLE && FlagOf(t, h, p).handle == cols[p].flag.primary
  {
    BuiltVisible(cols, entries, t, p);
  }

  // Without a primary key.

  lemma NotPkHandle(cols: seq<Column>, entries: seq<seq<nat>>, t: Table)
    requires EntriesOk(cols, entries) && IsBuilt(cols, entries, t) && !HasPrimary(cols, |cols|)
    ensures !PkHandle(t)
  {
  }

  /** An entry makes a unique not-null index exactly when its columns are not null. */
  lemma UniqueIff(cols: seq<Column>, entries: seq<seq<nat>>, t: Table, i: nat)
    requires Sound(cols, entries) && IsBuilt(cols, entries, t) && !HasPrimary(cols, |cols|) && i < |entries|
    ensures t.indices[i].cols == entries[i] && !t.indices[i].primary
    ensures IsIndexUnique(t, i) <==> AllNotNull(cols, entries[i])
  {
    var e := entries[i];
    assert EntrySound(cols, e) && t.indices[i] == BuiltIndex(cols, entries, i);
    assert !cols[e[0]].flag.primary && cols[e[0]].flag.unique;
    forall x | 0 <= x < |e|
      ensures Visible(t.columns[e[x]]) && t.columns[e[x]].notNull == !cols[e[x]].flag.nullable
    {
      BuiltVisible(cols, entries, t, e[x]);
    }
  }

  lemma HandleEntryId(cols: seq<Column>, entries: seq<seq<nat>>, t: Table, i: nat)
    requires EntriesOk(cols, entries) && IsBuilt(cols, entries, t) && i < |entries|
    ensures t.indices[i].id == 1 <==> IsHandleEntry(cols, entries, i)
    ensures t.indices[i].id >= 1
  {
    assert t.indices[i] == BuiltIndex(cols, entries, i);
  }

  /** The handle columns are exactly those of entry `i`, and not null. */
  predicate HandleAt(cols: seq<Column>, entries: seq<seq<nat>>, i: nat)
    requires EntriesOk(cols, entries)
  {
    && i < |entries| && AllNotNull(cols, entries[i])
    && forall p | 0 <= p < |cols| :: cols[p].flag.handle <==> p in entries[i]
  }

  lemma HandleAtIsHandleEntry(cols: seq<Column>, entries: seq<seq<nat>>, i: nat)
    requires EntriesOk(cols, entries) && HandleAt(cols, entries, i) && !HasPrimary(cols, |cols|)
    ensures IsHandleEntry(cols, entries, i)
  {
  }

  /** No not-null entry is shorter than entry `i`. */
  predicate Shortest(cols: seq<Column>, entries: seq<seq<nat>>, i: nat)
    requires EntriesOk(cols, entries) && i < |entries|
  {
    forall j | 0 <= j < |entries| :: AllNotNull(cols, entries[j]) ==> |entries[i]| <= |entries[j]|
  }

  predicate HandlesBack(cols: seq<Column>, t: Table, h: int) {
    |t.columns| == |cols| && forall p | 0 <= p < |cols| :: FlagOf(t, h, p).handle == cols[p].flag.handle
  }

  lemma SomeChosen(cols: seq<Column>, entries: seq<seq<nat>>, t: Table, h: int, j: nat) returns (i: nat)
    requires Sound(cols, entries) && IsBuilt(cols, entries, t) && IsHandle(t, h) && !HasPrimary(cols, |cols|)
    requires j < |entries| && AllNotNull(cols, entries[j])
    ensures i < |entries| && t.indices[i].id == h && AllNotNull(cols, entries[i])
    ensures forall k | 0 <= k < |entries| && AllNotNull(cols, entries[k]) :: Prefers(t, i, k)
  {
    NotPkHandle(cols, entries, t);
    UniqueIff(cols, entries, t, j);
    i :| 0 <= i < |t.indices| && Chosen(t, |t.indices|, i) && h == t.indices[i].id;
    UniqueIff(cols, entries, t, i);
    forall k | 0 <= k < |entries| && AllNotNull(cols, entries[k])
      ensures Prefers(t, i, k)
    {
      UniqueIff(cols, entries, t, k);
    }
  }

  lemma ShortestComesBack(cols: seq<Column>, entries: seq<seq<nat>>, t: Table, h: int, i: nat)
    requires Sound(cols, entries) && IsBuilt(cols, entries, t) && IsHandle(t, h) && !HasPrimary(cols, |cols|)
    requires HandleAt(cols, entries, i) && !TwoHandles(cols, entries, |entries|) && Shortest(cols, entries, i)
    ensures h == t.indices[i].id == 1 && HandlesBack(cols, t, h)
  {
    HandleAtIsHandleEntry(cols, entries, i);
    HandleEntryId(cols, entries, t, i);
    var c := SomeChosen(cols, entries, t, h, i);
    HandleEntryId(cols, entries, t, c);
    UniqueIff(cols, entries, t, i);
    UniqueIff(cols, entries, t, c);
    assert Prefers(t, c, i) && c == i;
    forall p | 0 <= p < |cols|
      ensures FlagOf(t, h, p).handle == cols[p].flag.handle
    {
      OnlyHandleIndex(cols, entries, t, i, p);
    }
  }

  lemma OnlyHandleIndex(cols: seq<Column>, entries: seq<seq<nat>>, t: Table, i: nat, p: nat)
    requires EntriesOk(cols, entries) && IsBuilt(cols, entries, t) && !TwoHandles(cols, entries, |entries|)
    requires i < |entries| && IsHandleEntry(cols, entries, i) && p < |cols|
    ensures FlagOf(t, 1, p).handle <==> p in entries[i]
  {
    HandleEntryId(cols, entries, t, i);
    assert t.indices[i] == BuiltIndex(cols, entries, i);
    if InHandle(t, 1, p, |t.indices|) {
      var j :| 0 <= j < |t.indices| && t.indices[j].id == 1 && p in t.indices[j].cols;
      HandleEntryId(cols, entries, t, j);
      assert j == i;
    }
  }

  lemma ChosenIsHandle(cols: seq<Column>, entries: seq<seq<nat>>, t: Table, i: nat, p: nat)
    requires EntriesOk(cols, entries) && IsBuilt(cols, entries, t) && i < |entries| && p < |cols| && p in entries[i]
    ensures FlagOf(t, t.indices[i].id, p).handle
  {
    HandleEntryId(cols, entries, t, i);
    assert t.indices[i] == BuiltIndex(cols, entries, i);
    assert InHandle(t, t.indices[i].id, p, |t.indices|);
  }

  lemma ShorterTakesOver(cols: seq<Column>, entries: seq<seq<nat>>, t: Table, h: int, i: nat)
    requires Sound(cols, entries) && IsBuilt(cols, entries, t) && IsHandle(t, h) && !HasPrimary(cols, |cols|)
    requires HandleAt(cols, entries, i) && !TwoHandles(cols, entries, |entries|) && !Shortest(cols, entries, i)
    ensures !HandlesBack(cols, t, h)
  {
    var j :| 0 <= j < |entries| && AllNotNull(cols, entries[j]) && |entries[j]| < |entries[i]|;
    var c := SomeChosen(cols, entries, t, h, j);
    UniqueIff(cols, entries, t, j);
    UniqueIff(cols, entries, t, c);
    assert Prefers(t, c, j) && c != i;
    HandleAtIsHandleEntry(cols, entries, i);
    assert !IsHandleEntry(cols, entries, c);
    var x :| 0 <= x < |entries[c]| && !cols[entries[c][x]].flag.handle;
    ChosenIsHandle(cols, entries, t, c, entries[c][x]);
  }

  /** Without a primary key, the handle comes back if and only if no not-null entry is shorter. */
  lemma HandleBackIff(cols: seq<Column>, entries: seq<seq<nat>>, t: Table, h: int, i: nat)
    requires Sound(cols, entries) && IsBuilt(cols, entries, t) && IsHandle(t, h) && !HasPrimary(cols, |cols|)
    requires HandleAt(cols, entries, i) && !TwoHandles(cols, entries, |entries|)
    ensures HandlesBack(cols, t, h) <==> Shortest(cols, entries, i)
  {
    if Shortest(cols, entries, i) {
      ShortestComesBack(cols, entries, t, h, i);
    } else {
      ShorterTakesOver(cols, entries, t, h, i);
    }
  }

  predicate SomeNotNull(cols: seq<Column>, entries: seq<seq<nat>>)
    requires EntriesOk(cols, entries)
  {
    exists j | 0 <= j < |entries| :: AllNotNull(cols, entries[j])
  }

  /** Columns without a handle get none if and only if no entry is not null. */
  lemma NoHandleBackIff(cols: seq<Column>, entries: seq<seq<nat>>, t: Table, h: int)
    requires Sound(cols, entries) && IsBuilt(cols, entries, t) && IsHandle(t, h) && !HasPrimary(cols, |cols|)
    requires forall p | 0 <= p < |cols| :: !cols[p].flag.handle
    ensures HandlesBack(cols, t, h) <==> !SomeNotNull(cols, entries)
    ensures !SomeNotNull(cols, entries) ==> h == INELIGIBLE
  {
    if SomeNotNull(cols, entries) {
      var j :| 0 <= j < |entries| && AllNotNull(cols, entries[j]);
      var c := SomeChosen(cols, entries, t, h, j);
      assert EntrySound(cols, entries[c]);
      ChosenIsHandle(cols, entries, t, c, entries[c][0]);
    } else {
      NotPkHandle(cols, entries, t);
      forall i: nat | i < |t.indices|
        ensures !IsIndexUnique(t, i)
      {
        UniqueIff(cols, entries, t, i);
      }
      assert h == INELIGIBLE;
      assert forall p | 0 <= p < |cols| :: t.columns[p] == BuiltColumn(cols[p], 100 + p);
    }
  }
}
