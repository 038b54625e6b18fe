/** The allowance ledger: an append-only log of transactions whose every entry
    carries the running balance after it (app/page.tsx, the `addTransaction`
    state updater; the same rule in components/okane-note.tsx). */
module Ledger {

  datatype Category = Income | Expense

  /** What a caller hands to `addTransaction`: a transaction without id,
      timestamp, balance and validity flag. */
  datatype Request = Request(amount: int, title: string, note: string, category: Category)

  /** One row of the log. `timestamp` is the creation time in milliseconds. */
  datatype TransactionLog = TransactionLog(
    id: int,
    timestamp: int,
    amount: int,
    balance: int,
    title: string,
    note: string,
    category: Category,
    isValid: bool)

  /** The effect of an amount on the balance: added for income, subtracted for expense. */
  function Signed(category: Category, amount: int): int {
    if category == Income then amount else -amount
  }

  /** The balance a new entry starts from: the last entry's balance, 0 for an empty log. */
  function LastBalance(logs: seq<TransactionLog>): (b: int)
    ensures logs == [] ==> b == 0
    ensures logs != [] ==> b == logs[|logs| - 1].balance
  {
    if logs == [] then 0 else logs[|logs| - 1].balance
  }

  /** Net effect of all entries: income amounts added, expense amounts subtracted. */
  function Total(logs: seq<TransactionLog>): int {
    if logs == [] then 0
    else Total(logs[..|logs| - 1]) + Signed(logs[|logs| - 1].category, logs[|logs| - 1].amount)
  }

  /** Sum of the amounts of the entries of one category. */
  function AmountSum(logs: seq<TransactionLog>, c: Category): int {
    if logs == [] then 0
    else AmountSum(logs[..|logs| - 1], c) + (if logs[|logs| - 1].category == c then logs[|logs| - 1].amount else 0)
  }

  /** The net effect is income total minus expense total. */
  lemma {:induction false} TotalIsIncomeMinusExpense(logs: seq<TransactionLog>)
    ensures Total(logs) == AmountSum(logs, Income) - AmountSum(logs, Expense)
  {
    if logs != [] {
      TotalIsIncomeMinusExpense(logs[..|logs| - 1]);
    }
  }

  /** The ledger invariant: ids are 1..n in order, every entry is valid, and
      every entry's balance is the net effect of the entries up to and
      including it. */
  ghost predicate Consistent(logs: seq<TransactionLog>) {
    forall k :: 0 <= k < |logs| ==>
      logs[k].id == k + 1 && logs[k].isValid && logs[k].balance == Total(logs[..k + 1])
  }

  /** The entry `addTransaction` builds: request fields copied, id = length + 1,
      balance from the last one, `isValid` set. */
  function NewEntry(prev: seq<TransactionLog>, req: Request, now: int): (e: TransactionLog)
    ensures e.id == |prev| + 1 && e.isValid && e.timestamp == now
    ensures e.amount == req.amount && e.title == req.title && e.note == req.note && e.category == req.category
    ensures e.balance - LastBalance(prev) == Signed(req.category, req.amount)
    ensures Consistent(prev) ==> e.balance == Total(prev + [e])
  {
    var e := TransactionLog(
      id := |prev| + 1,
      timestamp := now,
      amount := req.amount,
      balance := LastBalance(prev) + Signed(req.category, req.amount),
      title := req.title,
      note := req.note,
      category := req.category,
      isValid := true);
    assert Consistent(prev) ==> e.balance == Total(prev + [e]) by {
      if Consistent(prev) {
        LatestBalanceIsTotal(prev);
        assert (prev + [e])[..|prev|] == prev;
      }
    }
    e
  }

  /** The state updater: `[...prevLogs, transaction]`. */
  function Appended(prev: seq<TransactionLog>, req: Request, now: int): (r: seq<TransactionLog>)
    ensures |r| == |prev| + 1 && r[..|prev|] == prev
    ensures r[|prev|].id == |prev| + 1 && r[|prev|].isValid && r[|prev|].timestamp == now
    ensures r[|prev|].amount == req.amount && r[|prev|].title == req.title
    ensures r[|prev|].note == req.note && r[|prev|].category == req.category
    ensures LastBalance(r) == LastBalance(prev) + Signed(req.category, req.amount)
    ensures prev == [] ==> LastBalance(r) == Signed(req.category, req.amount)
  {
    prev + [NewEntry(prev, req, now)]
  }

  /** The net effect of a split log is the sum of the parts' net effects. */
  lemma {:induction false} TotalConcat(a: seq<TransactionLog>, b: seq<TransactionLog>)
    ensures Total(a + b) == Total(a) + Total(b)
    decreases |b|
  {
    if b == [] {
      assert a + b == a;
    } else {
      var b' := b[..|b| - 1];
      TotalConcat(a, b');
      assert (a + b)[..|a + b| - 1] == a + b';
    }
  }

  /** Every prefix of a consistent log is consistent. */
  lemma ConsistentPrefix(logs: seq<TransactionLog>, n: nat)
    requires Consistent(logs) && n <= |logs|
    ensures Consistent(logs[..n])
  {
    var p := logs[..n];
    forall k | 0 <= k < |p| ensures p[k].id == k + 1 && p[k].isValid && p[k].balance == Total(p[..k + 1]) {
      assert p[..k + 1] == logs[..k + 1];
    }
  }

  /** In a consistent log the latest balance is the net effect of the whole log
      (and so 0 for the empty log). */
  lemma LatestBalanceIsTotal(logs: seq<TransactionLog>)
    requires Consistent(logs)
    ensures LastBalance(logs) == Total(logs)
    ensures LastBalance(logs) == AmountSum(logs, Income) - AmountSum(logs, Expense)
  {
    TotalIsIncomeMinusExpense(logs);
    if logs != [] {
      assert logs[..|logs|] == logs;
    }
  }

  /** Appending keeps the ledger invariant. */
  lemma AppendKeepsConsistent(prev: seq<TransactionLog>, req: Request, now: int)
    requires Consistent(prev)
    ensures Consistent(Appended(prev, req, now))
  {
    var r := Appended(prev, req, now);
    LatestBalanceIsTotal(prev);
    forall k | 0 <= k < |r|
      ensures r[k].id == k + 1 && r[k].isValid && r[k].balance == Total(r[..k + 1])
    {
      if k < |prev| {
        assert r[..k + 1] == prev[..k + 1];
      } else {
        assert r[..k + 1] == r;
        assert r[..|r| - 1] == prev;
      }
    }
  }

  /** Several appends in a row, the i-th at clock value `clock[i]`. */
  function AppendAll(logs: seq<TransactionLog>, reqs: seq<Request>, clock: seq<int>): seq<TransactionLog>
    requires |clock| == |reqs|
    decreases |reqs|
  {
    if reqs == [] then logs
    else AppendAll(Appended(logs, reqs[0], clock[0]), reqs[1..], clock[1..])
  }

  /** `e` is the entry with id `id` that an append of `req` at clock value
      `t` creates. */
  ghost predicate EntryFor(e: TransactionLog, req: Request, t: int, id: int) {
    && e.id == id && e.timestamp == t
    && e.amount == req.amount && e.category == req.category
    && e.title == req.title && e.note == req.note
  }

  /** `r` is `logs` followed by one entry per request, with the next ids, the
      request fields and the clock values. */
  ghost predicate ExtendsWith(r: seq<TransactionLog>, logs: seq<TransactionLog>, reqs: seq<Request>, clock: seq<int>)
    requires |clock| == |reqs|
  {
    && |r| == |logs| + |reqs|
    && r[..|logs|] == logs
    && forall k :: 0 <= k < |reqs| ==> EntryFor(r[|logs| + k], reqs[k], clock[k], |logs| + k + 1)
  }

  /** One append followed by a run of appends extends the log by all the requests. */
  lemma ExtendsStep(logs: seq<TransactionLog>, reqs: seq<Request>, clock: seq<int>, r: seq<TransactionLog>)
    requires |clock| == |reqs| && reqs != []
    requires ExtendsWith(r, Appended(logs, reqs[0], clock[0]), reqs[1..], clock[1..])
    ensures ExtendsWith(r, logs, reqs, clock)
  {
    var next := Appended(logs, reqs[0], clock[0]);
    assert |next| == |logs| + 1 && next[..|logs|] == logs;
    assert r[..|next|] == next;
    assert r[..|logs|] == logs by {
      assert r[..|logs|] == r[..|next|][..|logs|];
    }
    forall k | 0 <= k < |reqs|
      ensures EntryFor(r[|logs| + k], reqs[k], clock[k], |logs| + k + 1)
    {
      if k == 0 {
        assert r[|logs|] == r[..|next|][|logs|] == next[|logs|];
      } else {
        var j := k - 1;
        assert 0 <= j < |reqs[1..]|;
        assert |logs| + k == |next| + j;
        assert reqs[1..][j] == reqs[k] && clock[1..][j] == clock[k];
        assert EntryFor(r[|next| + j], reqs[1..][j], clock[1..][j], |next| + j + 1);
      }
    }
  }

  /** A run of appends on a consistent log keeps the old entries, adds one
      entry per request with the next ids, and leaves a consistent log. */
  lemma {:induction false} AppendAllSpec(logs: seq<TransactionLog>, reqs: seq<Request>, clock: seq<int>)
    requires |clock| == |reqs|
    requires Consistent(logs)
    ensures ExtendsWith(AppendAll(logs, reqs, clock), logs, reqs, clock)
    ensures Consistent(AppendAll(logs, reqs, clock))
    decreases |reqs|
  {
    if reqs == [] {
      assert AppendAll(logs, reqs, clock) == logs;
    } else {
      var next := Appended(logs, reqs[0], clock[0]);
      AppendKeepsConsistent(logs, reqs[0], clock[0]);
      AppendAllSpec(next, reqs[1..], clock[1..]);
      ExtendsStep(logs, reqs, clock, AppendAll(logs, reqs, clock));
    }
  }

  /** In a consistent log each balance is income minus expense up to that entry. */
  lemma EntryBalance(logs: seq<TransactionLog>, k: int)
    requires Consistent(logs) && 0 <= k < |logs|
    ensures logs[k].balance == AmountSum(logs[..k + 1], Income) - AmountSum(logs[..k + 1], Expense)
  {
    TotalIsIncomeMinusExpense(logs[..k + 1]);
  }

  lemma ReplayEntry(reqs: seq<Request>, clock: seq<int>, k: int)
    requires |clock| == |reqs| && 0 <= k < |reqs|
    ensures var r := AppendAll([], reqs, clock);
      && |r| == |reqs|
      && r[k].id == k + 1 && r[k].amount == reqs[k].amount && r[k].category == reqs[k].category
      && r[k].balance == AmountSum(r[..k + 1], Income) - AmountSum(r[..k + 1], Expense)
  {
    var r := AppendAll([], reqs, clock);
    AppendAllSpec([], reqs, clock);
    assert r[0 + k] == r[k];
    EntryBalance(r, k);
  }

  /** Starting from an empty log, n appends give ids 1..n, the entries carry
      the requests in order, and each balance is income minus expense over
      the entries up to and including it. */
  lemma ReplayFromEmpty(reqs: seq<Request>, clock: seq<int>)
    requires |clock| == |reqs|
    ensures |AppendAll([], reqs, clock)| == |reqs|
    ensures forall k :: 0 <= k < |reqs| ==>
      var r := AppendAll([], reqs, clock);
      && r[k].id == k + 1
      && r[k].amount == reqs[k].amount && r[k].category == reqs[k].category
      && r[k].balance == AmountSum(r[..k + 1], Income) - AmountSum(r[..k + 1], Expense)
  {
    if reqs == [] {
      assert AppendAll([], reqs, clock) == [];
    } else {
      ReplayEntry(reqs, clock, 0);
    }
    forall k | 0 <= k < |reqs|
      ensures var r := AppendAll([], reqs, clock);
        && r[k].id == k + 1 && r[k].amount == reqs[k].amount && r[k].category == reqs[k].category
        && r[k].balance == AmountSum(r[..k + 1], Income) - AmountSum(r[..k + 1], Expense)
    {
      ReplayEntry(reqs, clock, k);
    }
  }

  /** The `transactionLogs` state cell of the page; every append replaces it
      with the updated log. */
  class LedgerStore {
    var logs: seq<TransactionLog>

    ghost predicate Valid()
      reads this
    {
      Consistent(logs)
    }

    /** Mounting with an initial log: the store is valid exactly when that
        log is consistent. */
    constructor (initial: seq<TransactionLog>)
      ensures logs == initial
      ensures Valid() <==> Consistent(initial)
    {
      logs := initial;
    }

    /** `addTransaction`: one entry appended, everything before it untouched. */
    method AddTransaction(req: Request, now: int)
      modifies this
      ensures logs == Appended(old(logs), req, now)
      ensures old(Valid()) ==> Valid()
    {
      if Consistent(logs) {
        AppendKeepsConsistent(logs, req, now);
      }
      logs := logs + [NewEntry(logs, req, now)];
    }
  }
}
