/** The sales statistics panel of the admin page (components/admin/SalesStats.jsx): a date range,
    the per-product rows the server returns for it, and their totals. */
module SalesStats {
  import opened Wrappers

  /** One product's sales in the range. */
  datatype StatRow = StatRow(id: string, productName: string, totalRevenue: int, totalQuantity: int)

  /** The two columns that are summed. */
  datatype Measure = Revenue | Quantity

  function Value(row: StatRow, m: Measure): int {
    match m
    case Revenue => row.totalRevenue
    case Quantity => row.totalQuantity
  }

  /** `reduce((acc, curr) => acc + curr.<column>, 0)`, a fold from the left. */
  function Sum(rows: seq<StatRow>, m: Measure): int
  {
    if |rows| == 0 then 0 else Sum(rows[..|rows| - 1], m) + Value(rows[|rows| - 1], m)
  }

  /** The totals line: the sum of the column, or 0 before any statistics arrived. */
  function Total(stats: Option<seq<StatRow>>, m: Measure): (t: int)
    ensures stats.None? ==> t == 0
    ensures stats.Some? && stats.value == [] ==> t == 0
    ensures stats.Some? ==> t == SumFromRight(stats.value, m)
  {
    if stats.Some? then
      FoldDirectionIrrelevant(stats.value, m);
      Sum(stats.value, m)
    else 0
  }

  lemma {:induction false} SumAppend(a: seq<StatRow>, b: seq<StatRow>, m: Measure)
    ensures Sum(a + b, m) == Sum(a, m) + Sum(b, m)
    decreases |b|
  {
    if |b| == 0 {
      assert a + b == a;
    } else {
      var b' := b[..|b| - 1];
      assert (a + b)[..|a + b| - 1] == a + b';
      SumAppend(a, b', m);
    }
  }

  /** The same column summed from the right, as an independent second definition. */
  function SumFromRight(rows: seq<StatRow>, m: Measure): int
  {
    if |rows| == 0 then 0 else Value(rows[0], m) + SumFromRight(rows[1..], m)
  }

  /** `reduce`'s left fold equals the right fold over the same rows. */
  lemma {:induction false} FoldDirectionIrrelevant(rows: seq<StatRow>, m: Measure)
    ensures Sum(rows, m) == SumFromRight(rows, m)
  {
    if |rows| > 0 {
      FoldDirectionIrrelevant(rows[1..], m);
      assert rows == [rows[0]] + rows[1..];
      SumAppend([rows[0]], rows[1..], m);
      assert [rows[0]][..0] == [];
    }
  }

  /** Taking one row out lowers the sum by that row's figure. */
  lemma SumRemoveAt(b: seq<StatRow>, k: nat, m: Measure)
    requires k < |b|
    ensures Sum(b, m) == Sum(b[..k] + b[k + 1..], m) + Value(b[k], m)
  {
    var pre, post := b[..k], b[k + 1..];
    assert b == pre + ([b[k]] + post);
    SumAppend(pre, [b[k]] + post, m);
    SumAppend([b[k]], post, m);
    SumAppend(pre, post, m);
    assert [b[k]][..0] == [];
  }

  lemma MultisetRemoveAt(b: seq<StatRow>, k: nat)
    requires k < |b|
    ensures multiset(b) == multiset(b[..k] + b[k + 1..]) + multiset{b[k]}
  {
    assert b == b[..k] + [b[k]] + b[k + 1..];
  }

  /** The totals do not depend on the order the rows arrive in: any rearrangement of the same
      rows has the same sum. */
  lemma {:induction false} SumPermutation(a: seq<StatRow>, b: seq<StatRow>, m: Measure)
    requires multiset(a) == multiset(b)
    ensures Sum(a, m) == Sum(b, m)
    decreases |a|
  {
    if |a| == 0 {
      assert |b| == |multiset(b)| == 0;
    } else {
      var n := |a| - 1;
      assert a[n] in multiset(b);
      var k :| 0 <= k < |b| && b[k] == a[n];
      MultisetRemoveAt(a, n);
      MultisetRemoveAt(b, k);
      assert a[..n] + a[n + 1..] == a[..n];
      var rest := b[..k] + b[k + 1..];
      assert multiset(a[..n]) == multiset(rest) by {
        assert multiset(a[..n]) == multiset(a) - multiset{a[n]};
        assert multiset(rest) == multiset(b) - multiset{a[n]};
      }
      SumPermutation(a[..n], b[..k] + b[k + 1..], m);
      SumRemoveAt(b, k, m);
    }
  }

  /** With no negative figures, each product's figure is at most the total. */
  lemma {:induction false} RowAtMostTotal(rows: seq<StatRow>, m: Measure, k: int)
    requires forall i :: 0 <= i < |rows| ==> Value(rows[i], m) >= 0
    requires 0 <= k < |rows|
    ensures 0 <= Value(rows[k], m) <= Sum(rows, m)
  {
    var prefix := rows[..|rows| - 1];
    SumNonNegative(prefix, m);
    if k < |rows| - 1 {
      RowAtMostTotal(prefix, m, k);
    }
  }

  lemma {:induction false} SumNonNegative(rows: seq<StatRow>, m: Measure)
    requires forall i :: 0 <= i < |rows| ==> Value(rows[i], m) >= 0
    ensures Sum(rows, m) >= 0
  {
    if |rows| > 0 {
      SumNonNegative(rows[..|rows| - 1], m);
    }
  }

  /** The result block renders once statistics arrived, even an empty list of them. */
  predicate ResultShown(stats: Option<seq<StatRow>>) {
    stats.Some?
  }

  datatype DateRange = DateRange(start: string, end: string)

  datatype Event = GetStats(startDate: string, endDate: string) | AlertFetchFailed

  class Panel {
    var dates: DateRange
    var stats: Option<seq<StatRow>>
    var log: seq<Event>

    constructor()
      ensures dates == DateRange("", "") && stats == None && !ResultShown(stats) && log == []
    {
      dates, stats, log := DateRange("", ""), None, [];
    }

    /** The start date input: only the start changes. */
    method SetStart(v: string)
      modifies this`dates
      ensures dates == DateRange(v, old(dates.end))
    {
      dates := dates.(start := v);
    }

    /** The end date input: only the end changes. */
    method SetEnd(v: string)
      modifies this`dates
      ensures dates == DateRange(old(dates.start), v)
    {
      dates := dates.(end := v);
    }

    /** `fetchStats`: the query carries the current range; a reply replaces the rows, a failure
        alerts and keeps the rows shown before. */
    method FetchStats(reply: Response<seq<StatRow>>)
      modifies this`stats, this`log
      ensures reply.Ok? ==> stats == Some(reply.data) && ResultShown(stats) && log == old(log) + [GetStats(dates.start, dates.end)]
      ensures reply.Failed? ==> stats == old(stats) && log == old(log) + [GetStats(dates.start, dates.end), AlertFetchFailed]
    {
      log := log + [GetStats(dates.start, dates.end)];
      if reply.Ok? {
        stats := Some(reply.data);
      } else {
        log := log + [AlertFetchFailed];
      }
    }
  }
}
