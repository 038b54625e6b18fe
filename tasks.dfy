/** Tasks of the work section (お仕事, scheduled chores) and the quest board
    (クエスト, ad hoc bonus jobs), with the pure list logic of the handlers in
    app/components/okane-note-work.tsx and components/okane-note.tsx: the
    toggle, the lookup, the two visible lists and the daily work record. */
module Tasks {
  import opened Seqs

  /** `'お仕事'` is `Work`, `'クエスト'` is `Quest`. */
  datatype TaskCategory = Work | Quest

  datatype Task = Task(
    id: int,
    category: TaskCategory,
    isValid: bool,
    title: string,
    note: string,
    reward: int,
    completed: bool)

  /** One task's entry after `toggleTask(id)`. */
  function Toggled(t: Task, id: int): Task {
    if t.id == id then t.(completed := !t.completed) else t
  }

  /** `toggleTask(id)`: the task list with every task of that id flipped. */
  function Toggle(tasks: seq<Task>, id: int): (r: seq<Task>)
    ensures |r| == |tasks|
    ensures forall i :: 0 <= i < |tasks| ==> (r[i].completed != tasks[i].completed <==> tasks[i].id == id)
    ensures forall i :: 0 <= i < |tasks| ==> r[i].(completed := tasks[i].completed) == tasks[i]
  {
    seq(|tasks|, i requires 0 <= i < |tasks| => Toggled(tasks[i], id))
  }

  /** Toggling the same id twice restores the list. */
  lemma ToggleTwice(tasks: seq<Task>, id: int)
    ensures Toggle(Toggle(tasks, id), id) == tasks
  {
    var once := Toggle(tasks, id);
    var twice := Toggle(once, id);
    forall i | 0 <= i < |tasks| ensures twice[i] == tasks[i] {
      assert twice[i].(completed := tasks[i].completed) == tasks[i];
    }
  }

  /** A toggle for an id no task has changes nothing. */
  lemma ToggleMissing(tasks: seq<Task>, id: int)
    requires forall i :: 0 <= i < |tasks| ==> tasks[i].id != id
    ensures Toggle(tasks, id) == tasks
  {
    var r := Toggle(tasks, id);
    forall i | 0 <= i < |tasks| ensures r[i] == tasks[i] {
      assert r[i].(completed := tasks[i].completed) == tasks[i];
    }
  }

  /** `tasks.find(task => task.id === id)`: the first task with that id, if any. */
  function Find(tasks: seq<Task>, id: int): (r: Option<Task>)
    ensures r.None? <==> forall i :: 0 <= i < |tasks| ==> tasks[i].id != id
    ensures r.Some? ==> exists i :: 0 <= i < |tasks| && tasks[i] == r.value
                          && tasks[i].id == id && forall j :: 0 <= j < i ==> tasks[j].id != id
  {
    if tasks == [] then None
    else if tasks[0].id == id then Some(tasks[0])
    else
      var r := Find(tasks[1..], id);
      assert forall i :: 1 <= i < |tasks| ==> tasks[i] == tasks[1..][i - 1];
      if r.Some? then
        ghost var i :| 0 <= i < |tasks[1..]| && tasks[1..][i] == r.value
                       && tasks[1..][i].id == id && forall j :: 0 <= j < i ==> tasks[1..][j].id != id;
        assert tasks[i + 1] == r.value;
        r
      else r
  }

  predicate IsWork(t: Task) { t.category == Work }
  predicate IsCompletedWork(t: Task) { t.completed && t.category == Work }
  predicate IsOpenWork(t: Task) { !t.completed && t.category == Work }
  predicate OnQuestBoard(t: Task) { t.category == Quest && t.isValid }
  predicate OnTodayList(t: Task) { (t.category == Work && t.isValid) || (t.category == Quest && t.completed) }

  /** The quest board: exactly the valid quests, in list order. */
  function QuestBoardList(tasks: seq<Task>): (r: seq<Task>)
    ensures forall t :: t in r <==> t in tasks && t.category == Quest && t.isValid
  {
    Filter(tasks, OnQuestBoard)
  }

  /** Today's work list: the valid work tasks and the quests already completed. */
  function TodayList(tasks: seq<Task>): (r: seq<Task>)
    ensures forall t :: t in r <==> t in tasks && ((t.category == Work && t.isValid) || (t.category == Quest && t.completed))
  {
    Filter(tasks, OnTodayList)
  }

  /** A quest's checkbox on the board is enabled only while it is uncompleted. */
  predicate QuestCheckboxEnabled(quest: Task) {
    !quest.completed
  }

  /** A row of today's list can be toggled only when it is a work task and the
      work day is still open; quest rows never toggle. */
  predicate TodayCheckboxEnabled(t: Task, isWorkDayCompleted: bool) {
    !(isWorkDayCompleted || t.category == Quest)
  }

  /** The fields of a task that a daily work record keeps. */
  datatype TaskSummary = TaskSummary(id: int, title: string, reward: int)

  datatype DailyWorkRecord = DailyWorkRecord(
    id: int,
    userId: int,
    date: string,
    scheduledTasksCount: int,
    completedTasksCount: int,
    maxPossibleReward: int,
    scheduledTasks: seq<TaskSummary>,
    completedTasks: seq<TaskSummary>)

  function Summaries(tasks: seq<Task>): (r: seq<TaskSummary>)
    ensures |r| == |tasks|
    ensures forall i :: 0 <= i < |tasks| ==> r[i] == TaskSummary(tasks[i].id, tasks[i].title, tasks[i].reward)
  {
    seq(|tasks|, i requires 0 <= i < |tasks| => TaskSummary(tasks[i].id, tasks[i].title, tasks[i].reward))
  }

  function RewardSum(tasks: seq<Task>): int {
    if tasks == [] then 0 else tasks[0].reward + RewardSum(tasks[1..])
  }

  /** The placeholder user id every record carries. */
  const UserId := 1

  /** The record `saveDailyWorkRecord` builds from the current task list;
      `now` stands for `Date.now()` and `date` for today's ISO date. */
  function BuildRecord(tasks: seq<Task>, now: int, date: string): (r: DailyWorkRecord)
    ensures r.id == now && r.userId == UserId && r.date == date
    ensures r.scheduledTasksCount == |r.scheduledTasks| && r.completedTasksCount == |r.completedTasks|
    ensures r.completedTasksCount <= r.scheduledTasksCount <= |tasks|
  {
    var work := Filter(tasks, IsWork);
    var done := Filter(tasks, IsCompletedWork);
    FilterMonotone(tasks, IsCompletedWork, IsWork);
    DailyWorkRecord(
      id := now,
      userId := UserId,
      date := date,
      scheduledTasksCount := |work|,
      completedTasksCount := |done|,
      maxPossibleReward := RewardSum(work),
      scheduledTasks := Summaries(work),
      completedTasks := Summaries(done))
  }

  /** Every task of `done` also lies in `work`, in order: a completed-work
      filter is a subsequence of the work filter, so its rewards are a part of
      the work rewards. */
  lemma {:induction false} CompletedRewardsBounded(tasks: seq<Task>)
    requires forall i :: 0 <= i < |tasks| ==> tasks[i].reward >= 0
    ensures RewardSum(Filter(tasks, IsCompletedWork)) <= RewardSum(Filter(tasks, IsWork))
  {
    if tasks != [] {
      var t, rest := tasks[0], tasks[1..];
      CompletedRewardsBounded(rest);
      var done, work := Filter(rest, IsCompletedWork), Filter(rest, IsWork);
      assert Filter(tasks, IsCompletedWork) == (if IsCompletedWork(t) then [t] else []) + done;
      assert Filter(tasks, IsWork) == (if IsWork(t) then [t] else []) + work;
      assert ([t] + done)[1..] == done;
      assert ([t] + work)[1..] == work;
      assert [] + done == done && [] + work == work;
      assert t.reward >= 0;
    }
  }

  /** When every work task is completed the two filters agree. */
  lemma {:induction false} AllDoneFiltersAgree(tasks: seq<Task>)
    requires forall i :: 0 <= i < |tasks| ==> tasks[i].category == Work ==> tasks[i].completed
    ensures Filter(tasks, IsCompletedWork) == Filter(tasks, IsWork)
  {
    if tasks != [] {
      AllDoneFiltersAgree(tasks[1..]);
    }
  }

  /** The work tasks split into the completed and the open ones: in number
      and in reward. */
  lemma {:induction false} WorkSplits(tasks: seq<Task>)
    ensures Count(tasks, IsWork) == Count(tasks, IsCompletedWork) + Count(tasks, IsOpenWork)
    ensures RewardSum(Filter(tasks, IsWork)) ==
      RewardSum(Filter(tasks, IsCompletedWork)) + RewardSum(Filter(tasks, IsOpenWork))
  {
    if tasks != [] {
      var t, rest := tasks[0], tasks[1..];
      WorkSplits(rest);
      var work, done, open := Filter(rest, IsWork), Filter(rest, IsCompletedWork), Filter(rest, IsOpenWork);
      if t.category != Work {
        assert Filter(tasks, IsWork) == work;
        assert Filter(tasks, IsCompletedWork) == done;
        assert Filter(tasks, IsOpenWork) == open;
      } else if t.completed {
        assert Filter(tasks, IsWork) == [t] + work && ([t] + work)[1..] == work;
        assert Filter(tasks, IsCompletedWork) == [t] + done && ([t] + done)[1..] == done;
        assert Filter(tasks, IsOpenWork) == open;
      } else {
        assert Filter(tasks, IsWork) == [t] + work && ([t] + work)[1..] == work;
        assert Filter(tasks, IsCompletedWork) == done;
        assert Filter(tasks, IsOpenWork) == [t] + open && ([t] + open)[1..] == open;
      }
    }
  }

  /** The summaries of the tasks a filter keeps are exactly the summaries
      of the tasks satisfying it. */
  lemma FilteredSummaries(tasks: seq<Task>, p: Task -> bool)
    ensures forall t :: t in tasks && p(t) ==>
      TaskSummary(t.id, t.title, t.reward) in Summaries(Filter(tasks, p))
    ensures forall s :: s in Summaries(Filter(tasks, p)) ==>
      exists t :: t in tasks && p(t) && s == TaskSummary(t.id, t.title, t.reward)
  {
    var kept := Filter(tasks, p);
    forall t | t in tasks && p(t)
      ensures TaskSummary(t.id, t.title, t.reward) in Summaries(kept)
    {
      var i :| 0 <= i < |kept| && kept[i] == t;
      assert Summaries(kept)[i] == TaskSummary(t.id, t.title, t.reward);
    }
    forall s | s in Summaries(kept)
      ensures exists t :: t in tasks && p(t) && s == TaskSummary(t.id, t.title, t.reward)
    {
      var i :| 0 <= i < |kept| && Summaries(kept)[i] == s;
      assert kept[i] in kept;
    }
  }

  /** What a daily record says about the task list it was built from: the
      scheduled summaries are those of the work tasks in list order, and the
      completed summaries those of the completed work tasks; both counts are
      the numbers of such tasks; the maximum reward is what the completed
      work earns plus what the open work would have earned. */
  lemma RecordFacts(tasks: seq<Task>, now: int, date: string)
    ensures var rec := BuildRecord(tasks, now, date);
      && rec.id == now && rec.userId == 1 && rec.date == date
      && rec.scheduledTasks == Summaries(Filter(tasks, IsWork))
      && rec.completedTasks == Summaries(Filter(tasks, IsCompletedWork))
      && rec.scheduledTasksCount == Count(tasks, IsWork)
      && rec.completedTasksCount == Count(tasks, IsCompletedWork)
      && rec.scheduledTasksCount == rec.completedTasksCount + Count(tasks, IsOpenWork)
      && rec.maxPossibleReward ==
           RewardSum(Filter(tasks, IsCompletedWork)) + RewardSum(Filter(tasks, IsOpenWork))
      && 0 <= rec.completedTasksCount <= rec.scheduledTasksCount <= |tasks|
      && rec.scheduledTasksCount == |rec.scheduledTasks|
      && rec.completedTasksCount == |rec.completedTasks|
      && (forall t :: t in tasks && t.category == Work ==> TaskSummary(t.id, t.title, t.reward) in rec.scheduledTasks)
      && (forall t :: t in tasks && t.category == Work && t.completed ==> TaskSummary(t.id, t.title, t.reward) in rec.completedTasks)
      && (forall s :: s in rec.scheduledTasks ==>
            exists t :: t in tasks && t.category == Work && s == TaskSummary(t.id, t.title, t.reward))
      && (forall s :: s in rec.completedTasks ==>
            exists t :: t in tasks && t.category == Work && t.completed && s == TaskSummary(t.id, t.title, t.reward))
      && ((forall i :: 0 <= i < |tasks| ==> tasks[i].reward >= 0) ==>
            0 <= RewardSum(Filter(tasks, IsCompletedWork)) <= rec.maxPossibleReward)
      && ((forall i :: 0 <= i < |tasks| ==> tasks[i].category == Work ==> tasks[i].completed) ==>
            rec.completedTasksCount == rec.scheduledTasksCount)
  {
    var rec := BuildRecord(tasks, now, date);
    var work := Filter(tasks, IsWork);
    var done := Filter(tasks, IsCompletedWork);
    FilterCount(tasks, IsWork);
    FilterCount(tasks, IsCompletedWork);
    WorkSplits(tasks);
    FilterMonotone(tasks, IsCompletedWork, IsWork);
    FilteredSummaries(tasks, IsWork);
    FilteredSummaries(tasks, IsCompletedWork);
    if forall i :: 0 <= i < |tasks| ==> tasks[i].reward >= 0 {
      CompletedRewardsBounded(tasks);
      NonNegativeRewardSum(done);
    }
    if forall i :: 0 <= i < |tasks| ==> tasks[i].category == Work ==> tasks[i].completed {
      AllDoneFiltersAgree(tasks);
    }
  }

  lemma {:induction false} NonNegativeRewardSum(tasks: seq<Task>)
    requires forall t :: t in tasks ==> t.reward >= 0
    ensures RewardSum(tasks) >= 0
  {
    if tasks != [] {
      NonNegativeRewardSum(tasks[1..]);
    }
  }

  /** The rollover's reset: the catalog with every task uncompleted. */
  function ResetTasks(catalog: seq<Task>): (r: seq<Task>)
    ensures |r| == |catalog|
    ensures forall i :: 0 <= i < |r| ==> !r[i].completed && r[i].(completed := catalog[i].completed) == catalog[i]
  {
    seq(|catalog|, i requires 0 <= i < |catalog| => catalog[i].(completed := false))
  }

  /** `tasks` is `catalog` up to completion flags. */
  ghost predicate SameShape(tasks: seq<Task>, catalog: seq<Task>) {
    |tasks| == |catalog| && forall i :: 0 <= i < |tasks| ==> tasks[i].(completed := catalog[i].completed) == catalog[i]
  }

  /** Toggling and resetting keep the task list shaped like the catalog. */
  lemma ShapeKept(tasks: seq<Task>, catalog: seq<Task>, id: int)
    requires SameShape(tasks, catalog)
    ensures SameShape(Toggle(tasks, id), catalog)
    ensures SameShape(ResetTasks(catalog), catalog)
  {
    var r := Toggle(tasks, id);
    forall i | 0 <= i < |r| ensures r[i].(completed := catalog[i].completed) == catalog[i] {
      assert r[i].(completed := tasks[i].completed) == tasks[i];
    }
  }

  /** Filtering work tasks keeps two lists equal up to completion flags. */
  lemma {:induction false} WorkFilterKeepsShape(a: seq<Task>, b: seq<Task>)
    requires SameShape(a, b)
    ensures SameShape(Filter(a, IsWork), Filter(b, IsWork))
  {
    if a != [] {
      assert a[0].(completed := b[0].completed) == b[0];
      WorkFilterKeepsShape(a[1..], b[1..]) by {
        forall i | 0 <= i < |a[1..]| ensures a[1..][i].(completed := b[1..][i].completed) == b[1..][i] {
          assert a[i + 1].(completed := b[i + 1].completed) == b[i + 1];
        }
      }
      var wa, wb := Filter(a[1..], IsWork), Filter(b[1..], IsWork);
      assert Filter(a, IsWork) == (if IsWork(a[0]) then [a[0]] else []) + wa;
      assert Filter(b, IsWork) == (if IsWork(b[0]) then [b[0]] else []) + wb;
      if IsWork(a[0]) {
        forall i | 0 <= i < |wa| + 1
          ensures ([a[0]] + wa)[i].(completed := ([b[0]] + wb)[i].completed) == ([b[0]] + wb)[i]
        {
          if i > 0 {
            assert ([a[0]] + wa)[i] == wa[i - 1] && ([b[0]] + wb)[i] == wb[i - 1];
          }
        }
      } else {
        assert [] + wa == wa && [] + wb == wb;
      }
    }
  }

  /** Lists equal up to completion flags have the same reward sum. */
  lemma {:induction false} RewardSumKeepsShape(a: seq<Task>, b: seq<Task>)
    requires SameShape(a, b)
    ensures RewardSum(a) == RewardSum(b)
  {
    if a != [] {
      assert a[0].(completed := b[0].completed) == b[0];
      RewardSumKeepsShape(a[1..], b[1..]) by {
        forall i | 0 <= i < |a[1..]| ensures a[1..][i].(completed := b[1..][i].completed) == b[1..][i] {
          assert a[i + 1].(completed := b[i + 1].completed) == b[i + 1];
        }
      }
    }
  }

  /** The schedule side of a record (the work tasks, their count and the
      maximum reward) does not depend on completion flags: the maximum reward
      counts every work task, completed or not. */
  lemma ScheduleIgnoresCompletion(a: seq<Task>, b: seq<Task>)
    requires |a| == |b|
    requires forall i :: 0 <= i < |a| ==> a[i].(completed := b[i].completed) == b[i]
    ensures Summaries(Filter(a, IsWork)) == Summaries(Filter(b, IsWork))
    ensures RewardSum(Filter(a, IsWork)) == RewardSum(Filter(b, IsWork))
  {
    var wa, wb := Filter(a, IsWork), Filter(b, IsWork);
    WorkFilterKeepsShape(a, b);
    RewardSumKeepsShape(wa, wb);
    forall i | 0 <= i < |wa| ensures Summaries(wa)[i] == Summaries(wb)[i] {
      assert wa[i].(completed := wb[i].completed) == wb[i];
    }
  }

  /** Toggling a task leaves a record's schedule and maximum reward as they were. */
  lemma RecordScheduleStableUnderToggle(tasks: seq<Task>, id: int, now: int, date: string)
    ensures var before, after := BuildRecord(tasks, now, date), BuildRecord(Toggle(tasks, id), now, date);
      && after.scheduledTasks == before.scheduledTasks
      && after.scheduledTasksCount == before.scheduledTasksCount
      && after.maxPossibleReward == before.maxPossibleReward
  {
    ScheduleIgnoresCompletion(Toggle(tasks, id), tasks);
  }

  /** After the toggle of a found, uncompleted task, the lookup finds it completed. */
  lemma {:induction false} ToggleFound(tasks: seq<Task>, id: int)
    requires Find(tasks, id).Some?
    ensures Find(Toggle(tasks, id), id) == Some(Find(tasks, id).value.(completed := !Find(tasks, id).value.completed))
  {
    ToggleHead(tasks, id);
    if tasks[0].id != id {
      ToggleFound(tasks[1..], id);
    }
  }

  /** Toggling a non-empty list toggles its head and its tail separately. */
  lemma ToggleHead(tasks: seq<Task>, id: int)
    requires tasks != []
    ensures Toggle(tasks, id)[0] == Toggled(tasks[0], id)
    ensures Toggle(tasks, id)[1..] == Toggle(tasks[1..], id)
  {
  }
}
