/** The seed data of data/initial-data.ts: five ledger rows and the task
    catalog, with the consistency facts the rest of the model relies on.
    Timestamps are the ISO strings of the source as milliseconds since the
    epoch (UTC). */
module Fixtures {
  import opened Ledger
  import opened Tasks
  import opened Seqs

  const InitialTransactionLogs: seq<TransactionLog> := [
    TransactionLog(1, 1704110400000, 10000, 10000, "お小遣い", "初期入金", Income, true),   // 2024-01-01T12:00:00Z
    TransactionLog(2, 1727773200000, 120, 10120, "お仕事報酬", "", Income, true),          // 2024-10-01T09:00:00Z
    TransactionLog(3, 1728138600000, 220, 9900, "おかし", "", Expense, true),              // 2024-10-05T14:30:00Z
    TransactionLog(4, 1728555300000, 130, 10030, "お仕事報酬", "追加タスク", Income, true), // 2024-10-10T10:15:00Z
    TransactionLog(5, 1729010700000, 330, 9700, "おもちゃ", "", Expense, true)             // 2024-10-15T16:45:00Z
  ]

  const InitialTasks: seq<Task> := [
    Task(1, Work, true, "お風呂を洗う", "毎日の習慣づけ", 10, false),
    Task(2, Work, true, "食器を片付けた後のテーブルを拭く", "食事の後片付け", 10, false),
    Task(3, Quest, true, "台所の拭き掃除", "特別な掃除タスク", 20, false),
    Task(4, Quest, true, "玄関の掃き掃除", "外回りの掃除", 20, false),
    Task(5, Quest, true, "肩たたき", "家族のケア", 10, false)
  ]

  /** The seed log satisfies the ledger invariant: ids 1..5, every row valid,
      and each balance is the previous one (0 before the first) plus income or
      minus expense. */
  lemma InitialLogsConsistent()
    ensures Consistent(InitialTransactionLogs)
    ensures LastBalance(InitialTransactionLogs) == 9700
  {
    var l := InitialTransactionLogs;
    assert Total(l[..1]) == 10000 by { assert l[..1][..0] == []; }
    assert Total(l[..2]) == 10120 by { assert l[..2][..1] == l[..1]; }
    assert Total(l[..3]) == 9900 by { assert l[..3][..2] == l[..2]; }
    assert Total(l[..4]) == 10030 by { assert l[..4][..3] == l[..3]; }
    assert Total(l[..5]) == 9700 by { assert l[..5][..4] == l[..4]; }
  }

  /** Amounts are positive and timestamps strictly increase along the log. */
  lemma InitialLogsChronological()
    ensures forall k :: 0 <= k < |InitialTransactionLogs| ==> InitialTransactionLogs[k].amount > 0
    ensures forall j, k :: 0 <= j < k < |InitialTransactionLogs| ==>
      InitialTransactionLogs[j].timestamp < InitialTransactionLogs[k].timestamp
  {
  }

  /** The catalog: distinct ids 1..5, ids 1-2 work and 3-5 quests, all valid,
      all uncompleted, all rewards positive. */
  lemma InitialTasksWellFormed()
    ensures forall i :: 0 <= i < |InitialTasks| ==> InitialTasks[i].id == i + 1
    ensures forall i, j :: 0 <= i < j < |InitialTasks| ==> InitialTasks[i].id != InitialTasks[j].id
    ensures forall i :: 0 <= i < |InitialTasks| ==>
      (InitialTasks[i].category == Work <==> InitialTasks[i].id <= 2)
    ensures forall i :: 0 <= i < |InitialTasks| ==>
      InitialTasks[i].isValid && !InitialTasks[i].completed && InitialTasks[i].reward > 0
  {
  }

  /** The first two rows of the catalog are work, the other three quests. */
  lemma CatalogSplit()
    ensures Filter(InitialTasks[..2], IsWork) == InitialTasks[..2]
    ensures Filter(InitialTasks[2..], IsWork) == []
  {
    var t := InitialTasks;
    InitialTasksWellFormed();
    FilterAll(t[..2], IsWork);
    forall i | 0 <= i < |t[2..]| ensures !IsWork(t[2..][i]) {
      assert t[2..][i] == t[i + 2];
    }
    FilterNone(t[2..], IsWork);
  }

  /** The work tasks of the catalog are its first two rows. */
  lemma InitialWork()
    ensures Filter(InitialTasks, IsWork) == InitialTasks[..2]
  {
    var t := InitialTasks;
    assert t == t[..2] + t[2..];
    FilterConcat(t[..2], t[2..], IsWork);
    CatalogSplit();
    assert t[..2] + [] == t[..2];
  }

  /** Saving the day on the fresh catalog records two scheduled work tasks,
      none completed, and a maximum reward of 20. */
  lemma InitialRecord(now: int, date: string)
    ensures var rec := BuildRecord(InitialTasks, now, date);
      rec.scheduledTasksCount == 2 && rec.completedTasksCount == 0 && rec.maxPossibleReward == 20
  {
    InitialWork();
    var w := InitialTasks[..2];
    assert RewardSum(w) == 20 by {
      assert w[0].reward == 10 && w[1].reward == 10;
      assert w[1..][1..] == [];
      assert RewardSum(w[1..]) == 10;
    }
    InitialTasksWellFormed();
    FilterNone(InitialTasks, IsCompletedWork);
  }
}
