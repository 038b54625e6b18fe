/** The derivations the balance card draws from the log
    (app/components/okane-note-balance.tsx, and getLast30DaysData and
    latestBalance of components/okane-note.tsx): the latest balance, the
    trailing 30-day window, the income/expense split of each chart row and the
    bar axis maximum. */
module Chart {
  import opened Seqs
  import opened Ledger

  /** components/okane-note.tsx reads the last entry without the empty-log
      guard of the balance card: it needs a non-empty log, and then agrees
      with the guarded `LastBalance`. */
  function LatestBalanceUnguarded(logs: seq<TransactionLog>): (b: int)
    requires |logs| > 0
    ensures b == LastBalance(logs)
  {
    logs[|logs| - 1].balance
  }

  predicate After(log: TransactionLog, cutoff: int) {
    log.timestamp >= cutoff
  }

  /** The logs at or after `cutoff`, in their original order. */
  function Window(logs: seq<TransactionLog>, cutoff: int): (w: seq<TransactionLog>)
    ensures |w| <= |logs|
    ensures forall log :: log in w <==> log in logs && log.timestamp >= cutoff
  {
    Filter(logs, log => After(log, cutoff))
  }

  /** The window keeps the order of the log: it splits along any split of the log. */
  lemma WindowConcat(a: seq<TransactionLog>, b: seq<TransactionLog>, cutoff: int)
    ensures Window(a + b, cutoff) == Window(a, cutoff) + Window(b, cutoff)
  {
    FilterConcat(a, b, log => After(log, cutoff));
  }

  /** For a log in time order the window is a trailing segment of it. */
  lemma {:induction false} WindowOfSortedIsSuffix(logs: seq<TransactionLog>, cutoff: int)
    requires forall j, k :: 0 <= j < k < |logs| ==> logs[j].timestamp <= logs[k].timestamp
    ensures exists start :: 0 <= start <= |logs| && Window(logs, cutoff) == logs[start..]
  {
    if logs == [] {
      assert Window(logs, cutoff) == logs[0..];
    } else if logs[0].timestamp >= cutoff {
      FilterAll(logs, log => After(log, cutoff));
      assert Window(logs, cutoff) == logs[0..];
    } else {
      var rest := logs[1..];
      forall j, k | 0 <= j < k < |rest| ensures rest[j].timestamp <= rest[k].timestamp {
        assert rest[j] == logs[j + 1] && rest[k] == logs[k + 1];
      }
      WindowOfSortedIsSuffix(rest, cutoff);
      var start :| 0 <= start <= |rest| && Window(rest, cutoff) == rest[start..];
      assert Window(logs, cutoff) == Window(rest, cutoff) by {
        assert !After(logs[0], cutoff);
        assert [] + Window(rest, cutoff) == Window(rest, cutoff);
      }
      assert rest[start..] == logs[start + 1..];
    }
  }

  /** One point of the chart. */
  datatype ChartRow = ChartRow(date: int, balance: int, income: int, expense: int)

  /** The row of one entry: its bars are never negative for a non-negative
      amount, one of them is 0, and income minus expense is the entry's
      effect on the balance. */
  function RowOf(log: TransactionLog): (row: ChartRow)
    ensures row.date == log.timestamp && row.balance == log.balance
    ensures row.income - row.expense == Signed(log.category, log.amount)
    ensures row.income == 0 || row.expense == 0
    ensures log.amount >= 0 ==> row.income >= 0 && row.expense >= 0
  {
    ChartRow(
      date := log.timestamp,
      balance := log.balance,
      income := if log.category == Income then log.amount else 0,
      expense := if log.category == Expense then log.amount else 0)
  }

  /** `getLast30DaysData`: one row per windowed log, in order; the row copies
      the balance and splits the amount into an income bar and an expense bar,
      exactly one of which can be non-zero, whose difference is the entry's
      effect on the balance. `thirtyDaysAgo` is the clock reading moved back
      30 local calendar days, as `setDate(getDate() - 30)` computes it. */
  function Last30DaysData(logs: seq<TransactionLog>, thirtyDaysAgo: int): (rows: seq<ChartRow>)
    ensures var w := Window(logs, thirtyDaysAgo);
      && |rows| == |w|
      && forall i :: 0 <= i < |rows| ==>
           && rows[i].date == w[i].timestamp
           && rows[i].balance == w[i].balance
           && rows[i].income - rows[i].expense == Signed(w[i].category, w[i].amount)
           && (w[i].category == Income ==> rows[i].expense == 0)
           && (w[i].category == Expense ==> rows[i].income == 0)
  {
    var w := Window(logs, thirtyDaysAgo);
    seq(|w|, i requires 0 <= i < |w| => RowOf(w[i]))
  }

  /** Largest element; `None` stands for `Math.max()` of nothing, -Infinity. */
  function MaxOf(xs: seq<int>): (m: Option<int>)
    ensures m.None? <==> xs == []
    ensures m.Some? ==> (forall i :: 0 <= i < |xs| ==> xs[i] <= m.value) && m.value in xs
  {
    if xs == [] then None
    else
      var rest := MaxOf(xs[1..]);
      if rest.None? || xs[0] >= rest.value then Some(xs[0])
      else
        assert rest.value in xs[1..];
        rest
  }

  /** `Math.max(a, b)` where `None` is -Infinity: -Infinity only when both
      are, otherwise one of the two values, and at least each of them. */
  function Max2(a: Option<int>, b: Option<int>): (m: Option<int>)
    ensures m.None? <==> a.None? && b.None?
    ensures m.Some? ==> m == a || m == b
    ensures a.Some? ==> m.Some? && a.value <= m.value
    ensures b.Some? ==> m.Some? && b.value <= m.value
  {
    match (a, b)
    case (None, _) => b
    case (_, None) => a
    case (Some(x), Some(y)) => Some(if x >= y then x else y)
  }

  function Incomes(rows: seq<ChartRow>): (xs: seq<int>)
    ensures |xs| == |rows| && forall i :: 0 <= i < |rows| ==> xs[i] == rows[i].income
  {
    seq(|rows|, i requires 0 <= i < |rows| => rows[i].income)
  }

  function Expenses(rows: seq<ChartRow>): (xs: seq<int>)
    ensures |xs| == |rows| && forall i :: 0 <= i < |rows| ==> xs[i] == rows[i].expense
  {
    seq(|rows|, i requires 0 <= i < |rows| => rows[i].expense)
  }

  /** `maxBarValue`, the top of the bar axis: above every bar, and the height
      of one of them; -Infinity (`None`) only when there are no rows. */
  function MaxBarValue(rows: seq<ChartRow>): (m: Option<int>)
    ensures m.None? <==> rows == []
    ensures m.Some? ==> forall i :: 0 <= i < |rows| ==> rows[i].income <= m.value && rows[i].expense <= m.value
    ensures m.Some? ==> exists i :: 0 <= i < |rows| && (m.value == rows[i].income || m.value == rows[i].expense)
  {
    var mi, me := MaxOf(Incomes(rows)), MaxOf(Expenses(rows));
    assert mi.Some? ==> exists i :: 0 <= i < |rows| && Incomes(rows)[i] == mi.value;
    assert me.Some? ==> exists i :: 0 <= i < |rows| && Expenses(rows)[i] == me.value;
    Max2(mi, me)
  }

  /** Net height of the bars: income bars up, expense bars down. */
  function BarNet(rows: seq<ChartRow>): int {
    if rows == [] then 0
    else BarNet(rows[..|rows| - 1]) + rows[|rows| - 1].income - rows[|rows| - 1].expense
  }

  lemma {:induction false} BarNetMatchesTotal(rows: seq<ChartRow>, w: seq<TransactionLog>)
    requires |rows| == |w|
    requires forall i :: 0 <= i < |rows| ==> rows[i].income - rows[i].expense == Signed(w[i].category, w[i].amount)
    ensures BarNet(rows) == Total(w)
  {
    if rows != [] {
      BarNetMatchesTotal(rows[..|rows| - 1], w[..|w| - 1]);
    }
  }

  /** Across a split of a consistent log, the balance rises by the net
      effect of the second part. */
  lemma SplitBalance(logs: seq<TransactionLog>, start: nat)
    requires Consistent(logs) && start <= |logs|
    ensures Total(logs[start..]) == LastBalance(logs) - LastBalance(logs[..start])
  {
    assert logs == logs[..start] + logs[start..];
    TotalConcat(logs[..start], logs[start..]);
    LatestBalanceIsTotal(logs);
    ConsistentPrefix(logs, start);
    LatestBalanceIsTotal(logs[..start]);
  }

  /** Where the window of a log in time order starts. */
  lemma SortedWindowStart(logs: seq<TransactionLog>, cutoff: int) returns (start: nat)
    requires forall j, k :: 0 <= j < k < |logs| ==> logs[j].timestamp <= logs[k].timestamp
    ensures start <= |logs| && Window(logs, cutoff) == logs[start..]
  {
    WindowOfSortedIsSuffix(logs, cutoff);
    start :| 0 <= start <= |logs| && Window(logs, cutoff) == logs[start..];
  }

  /** The bars add up to the net effect of the windowed entries. */
  lemma BarNetIsWindowTotal(logs: seq<TransactionLog>, thirtyDaysAgo: int)
    ensures BarNet(Last30DaysData(logs, thirtyDaysAgo)) == Total(Window(logs, thirtyDaysAgo))
  {
    BarNetMatchesTotal(Last30DaysData(logs, thirtyDaysAgo), Window(logs, thirtyDaysAgo));
  }

  /** For a consistent log in time order the chart tells one story: the bars
      of the window add up to the balance line's rise over the window, from
      the balance just before the window (0 if there is none) to the latest
      balance. */
  lemma BarsExplainBalance(logs: seq<TransactionLog>, thirtyDaysAgo: int)
    requires Consistent(logs)
    requires forall j, k :: 0 <= j < k < |logs| ==> logs[j].timestamp <= logs[k].timestamp
    ensures var rows := Last30DaysData(logs, thirtyDaysAgo);
      |rows| <= |logs| &&
      BarNet(rows) == LastBalance(logs) - LastBalance(logs[..|logs| - |rows|])
  {
    var rows := Last30DaysData(logs, thirtyDaysAgo);
    var start := SortedWindowStart(logs, thirtyDaysAgo);
    assert |rows| == |logs| - start;
    assert BarNet(rows) == Total(logs[start..]) by {
      BarNetIsWindowTotal(logs, thirtyDaysAgo);
    }
    assert Total(logs[start..]) == LastBalance(logs) - LastBalance(logs[..start]) by {
      SplitBalance(logs, start);
    }
  }
}
