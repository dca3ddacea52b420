/** Matching commits with the prewrites that carry their values, for one region feed. */
module Matcher {

  datatype OpType = OpPut | OpDelete | OpUnknown

  datatype EntryKind = Initialized | Committed | Prewrite | Commit | Rollback | UnknownEntry

  datatype Row = Row(kind: EntryKind, startTs: nat, commitTs: nat, key: string, value: string,
                     oldValue: string, generation: nat, op: OpType)

  datatype MatchKey = MatchKey(startTs: nat, key: string)

  function KeyOf(row: Row): MatchKey {
    MatchKey(row.startTs, row.key)
  }

  type Unmatched = map<MatchKey, Row>

  datatype MatchState = MatchState(unmatched: Unmatched, cachedCommit: seq<Row>, cachedRollback: seq<Row>)

  const EMPTY := MatchState(map[], [], [])

  /** Heartbeat prewrites, which carry no value, never replace a known prewrite, and neither does a
      prewrite of an older generation. */
  function PutPrewrite(u: Unmatched, row: Row): Unmatched {
    if KeyOf(row) in u && (row.value == "" || row.generation < u[KeyOf(row)].generation) then u
    else u[KeyOf(row) := row]
  }

  /** Before initialization a valueless or pipelined prewrite does not match yet. */
  predicate Matches(u: Unmatched, row: Row, initialized: bool) {
    && KeyOf(row) in u
    && (initialized || (u[KeyOf(row)].value != "" && u[KeyOf(row)].generation == 0))
  }

  function Filled(row: Row, prewrite: Row): Row {
    row.(value := prewrite.value, oldValue := prewrite.oldValue)
  }

  /** The cached commits that find their prewrite, in order, and the prewrites left over. */
  function MatchAll(u: Unmatched, rows: seq<Row>): (seq<Row>, Unmatched) {
    if rows == [] then ([], u)
    else
      var (out, u') := MatchAll(u, rows[..|rows| - 1]);
      var row := rows[|rows| - 1];
      if KeyOf(row) in u' then (out + [Filled(row, u'[KeyOf(row)])], u' - {KeyOf(row)}) else (out, u')
  }

  function KeysOf(rows: seq<Row>): set<MatchKey> {
    set row <- rows :: KeyOf(row)
  }

  class MatcherImpl {
    var unmatched: Unmatched
    var cachedCommit: seq<Row>
    var cachedRollback: seq<Row>

    function Value(): MatchState
      reads this
    {
      MatchState(unmatched, cachedCommit, cachedRollback)
    }

    constructor ()
      ensures Value() == EMPTY
    {
      unmatched, cachedCommit, cachedRollback := map[], [], [];
    }

    method PutPrewriteRow(row: Row)
      modifies this
      ensures Value() == old(Value()).(unmatched := PutPrewrite(old(unmatched), row))
    {
      var key := KeyOf(row);
      if key in unmatched {
        var prior := unmatched[key];
        if |row.value| == 0 {
          return;
        }
        if row.generation < prior.generation {
          return;
        }
      }
      unmatched := unmatched[key := row];
    }

    /** Fills in the value of a commit and forgets its prewrite, if it matches. */
    method MatchRow(row: Row, initialized: bool) returns (ok: bool, row': Row)
      modifies this
      ensures ok <==> Matches(old(unmatched), row, initialized)
      ensures ok ==> row' == Filled(row, old(unmatched)[KeyOf(row)])
                     && Value() == old(Value()).(unmatched := old(unmatched) - {KeyOf(row)})
      ensures !ok ==> row' == row && Value() == old(Value())
    {
      row' := row;
      var key := KeyOf(row);
      if key in unmatched {
        var prewrite := unmatched[key];
        if !initialized && |prewrite.value| == 0 {
          return false, row;
        }
        if !initialized && prewrite.generation > 0 {
          return false, row;
        }
        row' := row.(value := prewrite.value).(oldValue := prewrite.oldValue);
        unmatched := unmatched - {key};
        return true, row';
      }
      return false, row;
    }

    method CacheCommitRow(row: Row)
      modifies this
      ensures Value() == old(Value()).(cachedCommit := old(cachedCommit) + [row])
    {
      cachedCommit := cachedCommit + [row];
    }

    method CacheRollbackRow(row: Row)
      modifies this
      ensures Value() == old(Value()).(cachedRollback := old(cachedRollback) + [row])
    {
      cachedRollback := cachedRollback + [row];
    }

    method RollbackRow(row: Row)
      modifies this
      ensures Value() == old(Value()).(unmatched := old(unmatched) - {KeyOf(row)})
    {
      unmatched := unmatched - {KeyOf(row)};
    }

    /** Matches the cached commits and compacts the matched ones to the front of the slice. */
    method MatchCachedRow() returns (rows: seq<Row>)
      modifies this
      ensures rows == MatchAll(old(unmatched), old(cachedCommit)).0
      ensures Value() == MatchState(MatchAll(old(unmatched), old(cachedCommit)).1, [], old(cachedRollback))
    {
      rows := cachedCommit;
      cachedCommit := [];
      ghost var cached := rows;
      var top := 0;
      for i := 0 to |rows|
        invariant |rows| == |cached| && top <= i && rows[i..] == cached[i..]
        invariant rows[..top] == MatchAll(old(unmatched), cached[..i]).0
        invariant Value() == MatchState(MatchAll(old(unmatched), cached[..i]).1, [], old(cachedRollback))
      {
        assert cached[..i + 1][..i] == cached[..i] && rows[i] == rows[i..][0] == cached[i];
        var ok, entry := MatchRow(rows[i], true);
        assert rows[i + 1..] == rows[i..][1..];
        assert cached[i + 1..] == cached[i..][1..];
        if ok {
          ghost var before := rows;
          rows := rows[top := entry];
          assert rows[i + 1..] == before[i + 1..];
          top := top + 1;
          assert rows[..top] == before[..top - 1] + [entry];
        }
      }
      assert cached[..|cached|] == cached;
      rows := rows[..top];
    }

    method MatchCachedRollbackRow()
      modifies this
      ensures Value() == MatchState(old(unmatched) - KeysOf(old(cachedRollback)), old(cachedCommit), [])
    {
      var rollback := cachedRollback;
      cachedRollback := [];
      for i := 0 to |rollback|
        invariant Value() == MatchState(old(unmatched) - KeysOf(rollback[..i]), old(cachedCommit), [])
      {
        assert rollback[..i + 1] == rollback[..i] + [rollback[i]];
        assert KeysOf(rollback[..i + 1]) == KeysOf(rollback[..i]) + {KeyOf(rollback[i])};
        RollbackRow(rollback[i]);
        assert old(unmatched) - KeysOf(rollback[..i + 1]) == old(unmatched) - KeysOf(rollback[..i]) - {KeyOf(rollback[i])};
      }
      assert rollback[..|rollback|] == rollback;
    }
  }

  // ---------------------------------------------------------------------------------------------
  // Matching looks at one key at a time
  // ---------------------------------------------------------------------------------------------

  function ForKey(rows: seq<Row>, k: MatchKey): seq<Row> {
    if rows == [] then []
    else
      var rest, row := ForKey(rows[..|rows| - 1], k), rows[|rows| - 1];
      if KeyOf(row) == k then rest + [row] else rest
  }

  lemma ForKeyAppend(rows: seq<Row>, row: Row, k: MatchKey)
    ensures ForKey(rows + [row], k) == if KeyOf(row) == k then ForKey(rows, k) + [row] else ForKey(rows, k)
  {
    assert (rows + [row])[..|rows|] == rows;
  }

  /** A key with no cached commit is left alone. */
  lemma {:induction false} MatchAllLeavesOthers(u: Unmatched, rows: seq<Row>, k: MatchKey)
    requires ForKey(rows, k) == []
    ensures ForKey(MatchAll(u, rows).0, k) == []
    ensures k in MatchAll(u, rows).1 <==> k in u
    ensures k in u ==> MatchAll(u, rows).1[k] == u[k]
    decreases |rows|
  {
    if rows != [] {
      var init, row := rows[..|rows| - 1], rows[|rows| - 1];
      MatchAllLeavesOthers(u, init, k);
      var (out, u') := MatchAll(u, init);
      if KeyOf(row) in u' {
        ForKeyAppend(out, Filled(row, u'[KeyOf(row)]), k);
      }
    }
  }

  /** A key with one cached commit and a prewrite yields exactly that commit, filled in. */
  lemma {:induction false} MatchAllFindsOne(u: Unmatched, rows: seq<Row>, k: MatchKey, c: Row)
    requires ForKey(rows, k) == [c] && k in u
    ensures ForKey(MatchAll(u, rows).0, k) == [Filled(c, u[k])]
    decreases |rows|
  {
    var init, row := rows[..|rows| - 1], rows[|rows| - 1];
    var (out, u') := MatchAll(u, init);
    if KeyOf(row) == k {
      assert ForKey(init, k) + [row] == [c];
      assert |ForKey(init, k)| == 0 && (ForKey(init, k) + [row])[0] == row;
      MatchAllLeavesOthers(u, init, k);
      ForKeyAppend(out, Filled(row, u'[k]), k);
    } else {
      MatchAllFindsOne(u, init, k, c);
      if KeyOf(row) in u' {
        ForKeyAppend(out, Filled(row, u'[KeyOf(row)]), k);
      }
    }
  }

  /** The cached commit at `i` finds its prewrite: there is one, and no earlier commit took it. */
  predicate MatchesAt(u: Unmatched, rows: seq<Row>, i: nat)
    requires i < |rows|
  {
    KeyOf(rows[i]) in u && forall j | 0 <= j < i :: KeyOf(rows[j]) != KeyOf(rows[i])
  }

  /** A prewrite is left over exactly when no cached commit has its key. */
  lemma {:induction false} MatchAllLeftOver(u: Unmatched, rows: seq<Row>, k: MatchKey)
    ensures k in MatchAll(u, rows).1 <==> k in u && forall j | 0 <= j < |rows| :: KeyOf(rows[j]) != k
    decreases |rows|
  {
    if rows != [] {
      MatchAllLeftOver(u, rows[..|rows| - 1], k);
    }
  }
}
