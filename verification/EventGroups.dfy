/** The Kafka consumer's events group: the rows of one table in one partition that wait for a resolved ts. */
module EventGroups {

  /** A row changed event; the id tells rows with one CommitTs apart. */
  datatype Row = Row(commitTs: nat, id: nat)

  datatype Group = Group(events: seq<Row>, highWatermark: nat)

  const NEW_GROUP := Group([], 0)

  predicate Sorted(rows: seq<Row>) {
    forall i, j | 0 <= i < j < |rows| :: rows[i].commitTs <= rows[j].commitTs
  }

  predicate AtMost(rows: seq<Row>, ts: nat) {
    forall i | 0 <= i < |rows| :: rows[i].commitTs <= ts
  }

  predicate AtLeast(rows: seq<Row>, ts: nat) {
    forall i | 0 <= i < |rows| :: ts <= rows[i].commitTs
  }

  function AfterAppend(g: Group, row: Row): Group {
    Group(g.events + [row], if row.commitTs > g.highWatermark then row.commitTs else g.highWatermark)
  }

  /** `sort.Search` for the first row above `ts`, between `lo` and `hi`. */
  function SearchIn(rows: seq<Row>, ts: nat, lo: nat, hi: nat): (r: nat)
    requires lo <= hi <= |rows|
    ensures lo <= r <= hi
    decreases hi - lo
  {
    if lo == hi then lo
    else
      var mid := (lo + hi) / 2;
      if rows[mid].commitTs > ts then SearchIn(rows, ts, lo, mid) else SearchIn(rows, ts, mid + 1, hi)
  }

  function Search(rows: seq<Row>, ts: nat): (r: nat)
    ensures r <= |rows|
  {
    SearchIn(rows, ts, 0, |rows|)
  }

  /** No row above `ts` comes before one at or below it. */
  predicate Separated(rows: seq<Row>, ts: nat) {
    forall i, j | 0 <= i < j < |rows| :: rows[j].commitTs <= ts ==> rows[i].commitTs <= ts
  }

  /** On such rows the search splits those up to `ts` from those above. */
  lemma {:induction false} SearchInSplits(rows: seq<Row>, ts: nat, lo: nat, hi: nat)
    requires lo <= hi <= |rows| && Separated(rows, ts)
    requires forall k | 0 <= k < lo :: rows[k].commitTs <= ts
    requires forall k | hi <= k < |rows| :: rows[k].commitTs > ts
    ensures forall k | 0 <= k < |rows| :: rows[k].commitTs <= ts <==> k < SearchIn(rows, ts, lo, hi)
    decreases hi - lo
  {
    if lo < hi {
      var mid := (lo + hi) / 2;
      if rows[mid].commitTs > ts {
        SearchInSplits(rows, ts, lo, mid);
      } else {
        SearchInSplits(rows, ts, mid + 1, hi);
      }
    }
  }

  lemma SearchSplits(rows: seq<Row>, ts: nat)
    requires Sorted(rows)
    ensures AtMost(rows[..Search(rows, ts)], ts) && AtLeast(rows[Search(rows, ts)..], ts + 1)
  {
    SearchInSplits(rows, ts, 0, |rows|);
  }

  /** The rows up to `ts`, and those above, in order. */
  function UpTo(rows: seq<Row>, ts: nat): seq<Row> {
    if rows == [] then []
    else UpTo(rows[..|rows| - 1], ts) + if rows[|rows| - 1].commitTs <= ts then [rows[|rows| - 1]] else []
  }

  function Above(rows: seq<Row>, ts: nat): seq<Row> {
    if rows == [] then []
    else Above(rows[..|rows| - 1], ts) + if rows[|rows| - 1].commitTs > ts then [rows[|rows| - 1]] else []
  }

  lemma {:induction false} AllUpTo(rows: seq<Row>, ts: nat)
    requires AtMost(rows, ts)
    ensures UpTo(rows, ts) == rows && Above(rows, ts) == []
  {
    if rows != [] {
      AllUpTo(rows[..|rows| - 1], ts);
      assert rows[..|rows| - 1] + [rows[|rows| - 1]] == rows;
    }
  }

  lemma {:induction false} AllAbove(rows: seq<Row>, ts: nat)
    requires AtLeast(rows, ts + 1)
    ensures UpTo(rows, ts) == [] && Above(rows, ts) == rows
  {
    if rows != [] {
      AllAbove(rows[..|rows| - 1], ts);
      assert rows[..|rows| - 1] + [rows[|rows| - 1]] == rows;
    }
  }

  lemma {:induction false} UpToConcat(a: seq<Row>, b: seq<Row>, ts: nat)
    ensures UpTo(a + b, ts) == UpTo(a, ts) + UpTo(b, ts)
  {
    if b == [] {
      assert a + b == a;
    } else {
      assert (a + b)[..|a + b| - 1] == a + b[..|b| - 1];
      UpToConcat(a, b[..|b| - 1], ts);
    }
  }

  lemma {:induction false} AboveConcat(a: seq<Row>, b: seq<Row>, ts: nat)
    ensures Above(a + b, ts) == Above(a, ts) + Above(b, ts)
  {
    if b == [] {
      assert a + b == a;
    } else {
      assert (a + b)[..|a + b| - 1] == a + b[..|b| - 1];
      AboveConcat(a, b[..|b| - 1], ts);
    }
  }

  lemma SplitGivesFilter(low: seq<Row>, high: seq<Row>, ts: nat)
    requires AtMost(low, ts) && AtLeast(high, ts + 1)
    ensures UpTo(low + high, ts) == low && Above(low + high, ts) == high
  {
    AllUpTo(low, ts);
    AllAbove(high, ts);
    UpToConcat(low, high, ts);
    AboveConcat(low, high, ts);
  }

  /** A split between the rows up to `ts` and those above is the only one. */
  lemma SplitIsFilter(rows: seq<Row>, ts: nat, n: nat)
    requires n <= |rows|
    ensures rows[..n] == UpTo(rows, ts) && rows[n..] == Above(rows, ts) <==>
            AtMost(rows[..n], ts) && AtLeast(rows[n..], ts + 1)
  {
    UpToIsAtMost(rows, ts);
    if AtMost(rows[..n], ts) && AtLeast(rows[n..], ts + 1) {
      assert rows[..n] + rows[n..] == rows;
      SplitGivesFilter(rows[..n], rows[n..], ts);
    }
  }

  lemma {:induction false} UpToIsAtMost(rows: seq<Row>, ts: nat)
    ensures AtMost(UpTo(rows, ts), ts) && AtLeast(Above(rows, ts), ts + 1)
  {
    if rows != [] {
      UpToIsAtMost(rows[..|rows| - 1], ts);
    }
  }

  lemma SplitIsSeparated(rows: seq<Row>, ts: nat, n: nat)
    requires n <= |rows| && AtMost(rows[..n], ts) && AtLeast(rows[n..], ts + 1)
    ensures Separated(rows, ts)
  {
    assert forall i | 0 <= i < n :: rows[i] == rows[..n][i];
    assert forall i | n <= i < |rows| :: rows[i] == rows[n..][i - n];
  }

  lemma SeparatedIsSplit(rows: seq<Row>, ts: nat)
    requires Separated(rows, ts)
    ensures AtMost(rows[..Search(rows, ts)], ts) && AtLeast(rows[Search(rows, ts)..], ts + 1)
  {
    SearchInSplits(rows, ts, 0, |rows|);
  }

  /** On any rows, sorted or not, the search hands out exactly those up to `ts` if and only if no row
      above `ts` comes before one at or below it. */
  lemma SearchIsExactIff(rows: seq<Row>, ts: nat)
    ensures rows[..Search(rows, ts)] == UpTo(rows, ts) && rows[Search(rows, ts)..] == Above(rows, ts) <==> Separated(rows, ts)
  {
    var n := Search(rows, ts);
    SplitIsFilter(rows, ts, n);
    if Separated(rows, ts) {
      SeparatedIsSplit(rows, ts);
    } else if AtMost(rows[..n], ts) && AtLeast(rows[n..], ts + 1) {
      SplitIsSeparated(rows, ts, n);
    }
  }

  class EventsGroup {
    var events: seq<Row>
    var highWatermark: nat

    function Value(): Group
      reads this
    {
      Group(events, highWatermark)
    }

    constructor ()
      ensures Value() == NEW_GROUP
    {
      events, highWatermark := [], 0;
    }

    method Append(row: Row)
      modifies this
      ensures Value() == AfterAppend(old(Value()), row)
    {
      events := events + [row];
      if row.commitTs > highWatermark {
        highWatermark := row.commitTs;
      }
    }

    /** Hands out a prefix and keeps the rest; exactly the rows up to `ts` if and only if none above it
        comes before one of them, so always on a sorted group. */
    method Resolve(ts: nat) returns (result: seq<Row>)
      modifies this
      ensures result + events == old(events) && highWatermark == old(highWatermark)
      ensures |result| == Search(old(events), ts)
      ensures result == UpTo(old(events), ts) && events == Above(old(events), ts) <==> Separated(old(events), ts)
      ensures Sorted(old(events)) ==> AtMost(result, ts) && AtLeast(events, ts + 1)
    {
      var i, j := 0, |events|;
      while i < j
        invariant 0 <= i <= j <= |events|
        invariant SearchIn(events, ts, i, j) == Search(events, ts)
      {
        var h := (i + j) / 2;
        if events[h].commitTs > ts {
          j := h;
        } else {
          i := h + 1;
        }
      }
      SearchIsExactIff(events, ts);
      UpToIsAtMost(events, ts);
      result := events[..i];
      events := events[i..];
    }
  }
}
