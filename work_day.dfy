/** The work section's state machine (app/components/okane-note-work.tsx; the
    same handlers in components/okane-note.tsx): the task list with its
    completion flags, the open/closed work day, the quest confirmation dialog,
    the last date the rollover saw, and the daily work records handed to the
    logging collaborator. Timers run as immediate steps. */
module WorkSection {
  import opened Seqs
  import opened Tasks
  import opened Ledger
  import Fixtures

  /** The quest confirmation dialog: open or closed, and the pending quest id. */
  datatype ConfirmationDialog = ConfirmationDialog(isOpen: bool, taskId: Option<int>)

  const ClosedDialog := ConfirmationDialog(false, None)

  /** The most days a rollover backfills. */
  const MaxBackfillDays := 7

  /** How many records a rollover saves for a gap of `daysBetween` days: one
      per day up to a week, a week's worth beyond that, none for a gap that
      is not positive. */
  function BackfillCount(daysBetween: int): (n: nat)
    ensures n <= MaxBackfillDays
    ensures 0 <= daysBetween <= MaxBackfillDays ==> n == daysBetween
    ensures daysBetween > MaxBackfillDays ==> n == MaxBackfillDays
    ensures daysBetween <= 0 ==> n == 0
  {
    if daysBetween <= MaxBackfillDays then (if daysBetween < 0 then 0 else daysBetween) else MaxBackfillDays
  }

  /** The title of the income entry a confirmed quest pays. */
  function QuestRewardTitle(quest: Task): string {
    "クエスト報酬: " + quest.title
  }

  /** The request a confirmed quest hands to `addTransaction`. */
  function QuestRewardRequest(quest: Task): (req: Request)
    ensures req.category == Income && req.amount == quest.reward && req.note == ""
    ensures req.title == "クエスト報酬: " + quest.title
    ensures |req.title| > |quest.title| && req.title[|req.title| - |quest.title|..] == quest.title
  {
    Request(quest.reward, QuestRewardTitle(quest), "", Income)
  }

  class WorkDay {
    var tasks: seq<Task>
    var isWorkDayCompleted: bool
    var confirmationDialog: ConfirmationDialog
    var lastSavedDate: int
    var savedRecords: seq<DailyWorkRecord>

    /** The task list is always the catalog up to completion flags. */
    ghost predicate Valid()
      reads this
    {
      SameShape(tasks, Fixtures.InitialTasks)
    }

    /** Mounting: the catalog, an open day, a closed dialog, and
        `lastSavedDate` set to the day of mounting. */
    constructor (today: int)
      ensures Valid()
      ensures tasks == Fixtures.InitialTasks && !isWorkDayCompleted
      ensures confirmationDialog == ClosedDialog && lastSavedDate == today && savedRecords == []
    {
      tasks := Fixtures.InitialTasks;
      isWorkDayCompleted := false;
      confirmationDialog := ClosedDialog;
      lastSavedDate := today;
      savedRecords := [];
    }

    /** `toggleTask(id)`. */
    method ToggleTask(id: int)
      modifies this
      ensures tasks == Toggle(old(tasks), id)
      ensures isWorkDayCompleted == old(isWorkDayCompleted) && confirmationDialog == old(confirmationDialog)
      ensures lastSavedDate == old(lastSavedDate) && savedRecords == old(savedRecords)
      ensures old(Valid()) ==> Valid()
    {
      if Valid() {
        ShapeKept(tasks, Fixtures.InitialTasks, id);
      }
      tasks := Toggle(tasks, id);
    }

    /** `saveDailyWorkRecord`: snapshot the tasks into a record, then close the day. */
    method SaveDailyWorkRecord(now: int, date: string)
      modifies this
      ensures savedRecords == old(savedRecords) + [BuildRecord(old(tasks), now, date)]
      ensures isWorkDayCompleted
      ensures tasks == old(tasks) && confirmationDialog == old(confirmationDialog)
      ensures lastSavedDate == old(lastSavedDate)
    {
      savedRecords := savedRecords + [BuildRecord(tasks, now, date)];
      isWorkDayCompleted := true;
    }

    /** `handleQuestCompletion(taskId)`: open the dialog for that quest. */
    method HandleQuestCompletion(taskId: int)
      modifies this
      ensures confirmationDialog == ConfirmationDialog(true, Some(taskId))
      ensures tasks == old(tasks) && isWorkDayCompleted == old(isWorkDayCompleted)
      ensures lastSavedDate == old(lastSavedDate) && savedRecords == old(savedRecords)
    {
      confirmationDialog := ConfirmationDialog(true, Some(taskId));
    }

    /** The dialog's cancel button (`onClose`): close the dialog and change
        nothing else. */
    method CancelQuestCompletion()
      modifies this
      ensures confirmationDialog == ClosedDialog
      ensures tasks == old(tasks) && isWorkDayCompleted == old(isWorkDayCompleted)
      ensures lastSavedDate == old(lastSavedDate) && savedRecords == old(savedRecords)
    {
      confirmationDialog := ClosedDialog;
    }

    /** `confirmQuestCompletion`: if the pending id names a task, toggle it and
        pay its reward as one income entry; in every case close the dialog. */
    method ConfirmQuestCompletion(ledger: LedgerStore, now: int)
      modifies this, ledger
      ensures confirmationDialog == ClosedDialog
      ensures isWorkDayCompleted == old(isWorkDayCompleted)
      ensures lastSavedDate == old(lastSavedDate) && savedRecords == old(savedRecords)
      ensures var pending := old(confirmationDialog.taskId);
        var found := if pending.Some? then Find(old(tasks), pending.value) else None;
        if found.Some? then
          && tasks == Toggle(old(tasks), found.value.id)
          && ledger.logs == Appended(old(ledger.logs), QuestRewardRequest(found.value), now)
        else
          tasks == old(tasks) && ledger.logs == old(ledger.logs)
      ensures old(Valid()) ==> Valid()
      ensures old(ledger.Valid()) ==> ledger.Valid()
    {
      if confirmationDialog.taskId.Some? {
        var quest := Find(tasks, confirmationDialog.taskId.value);
        if quest.Some? {
          ToggleTask(quest.value.id);
          ledger.AddTransaction(QuestRewardRequest(quest.value), now);
        }
      }
      confirmationDialog := ClosedDialog;
    }

    /** `handleDateChange` with its timers run at once: when the date differs
        from the last one seen, save the backfill records, remember the date,
        reopen the day and reset the tasks to the catalog. */
    method HandleDateChange(currentDate: int, daysBetween: int, now: int, date: string)
      modifies this
      ensures currentDate == old(lastSavedDate) ==>
        && tasks == old(tasks) && isWorkDayCompleted == old(isWorkDayCompleted)
        && lastSavedDate == old(lastSavedDate) && savedRecords == old(savedRecords)
      ensures currentDate != old(lastSavedDate) ==>
        && savedRecords == old(savedRecords) + Repeat(BuildRecord(old(tasks), now, date), BackfillCount(daysBetween))
        && lastSavedDate == currentDate
        && !isWorkDayCompleted
        && tasks == ResetTasks(Fixtures.InitialTasks)
      ensures confirmationDialog == old(confirmationDialog)
      ensures currentDate != old(lastSavedDate) ==> Valid()
      ensures old(Valid()) ==> Valid()
    {
      if currentDate != lastSavedDate {
        ghost var record := BuildRecord(tasks, now, date);
        if daysBetween <= MaxBackfillDays {
          var i := 1;
          while i <= daysBetween
            invariant 1 <= i <= (if daysBetween < 1 then 1 else daysBetween + 1)
            invariant tasks == old(tasks) && confirmationDialog == old(confirmationDialog)
            invariant lastSavedDate == old(lastSavedDate)
            invariant savedRecords == old(savedRecords) + Repeat(record, i - 1)
          {
            RepeatSnoc(record, i - 1);
            SaveDailyWorkRecord(now, date);
            i := i + 1;
          }
        } else {
          var i := MaxBackfillDays - 1;
          while i >= 0
            invariant -1 <= i <= MaxBackfillDays - 1
            invariant tasks == old(tasks) && confirmationDialog == old(confirmationDialog)
            invariant lastSavedDate == old(lastSavedDate)
            invariant savedRecords == old(savedRecords) + Repeat(record, MaxBackfillDays - 1 - i)
          {
            RepeatSnoc(record, MaxBackfillDays - 1 - i);
            SaveDailyWorkRecord(now, date);
            i := i - 1;
          }
        }
        lastSavedDate := currentDate;
        isWorkDayCompleted := false;
        tasks := ResetTasks(Fixtures.InitialTasks);
        ShapeKept(tasks, Fixtures.InitialTasks, 0);
      }
    }

    /** A click on a row of today's list: only an enabled work row toggles. */
    method ClickTodayTask(t: Task)
      requires t in TodayList(tasks)
      modifies this
      ensures tasks == (if TodayCheckboxEnabled(t, old(isWorkDayCompleted)) then Toggle(old(tasks), t.id) else old(tasks))
      ensures isWorkDayCompleted ==> tasks == old(tasks)
      ensures t.category == Quest ==> tasks == old(tasks)
      ensures isWorkDayCompleted == old(isWorkDayCompleted) && confirmationDialog == old(confirmationDialog)
      ensures lastSavedDate == old(lastSavedDate) && savedRecords == old(savedRecords)
      ensures old(Valid()) ==> Valid()
    {
      if TodayCheckboxEnabled(t, isWorkDayCompleted) {
        ToggleTask(t.id);
      }
    }

    /** A click on a quest of the board: an uncompleted quest asks for
        confirmation, a completed one's checkbox is disabled. */
    method ClickQuest(quest: Task)
      requires quest in QuestBoardList(tasks)
      modifies this
      ensures confirmationDialog ==
        (if QuestCheckboxEnabled(quest) then ConfirmationDialog(true, Some(quest.id)) else old(confirmationDialog))
      ensures confirmationDialog != old(confirmationDialog) ==> !quest.completed && quest.category == Quest
      ensures tasks == old(tasks) && isWorkDayCompleted == old(isWorkDayCompleted)
      ensures lastSavedDate == old(lastSavedDate) && savedRecords == old(savedRecords)
    {
      if QuestCheckboxEnabled(quest) {
        HandleQuestCompletion(quest.id);
      }
    }
  }

  /** A confirmed quest of the catalog pays a valid request: a positive
      amount and a non-empty title. */
  lemma QuestRewardIsValidRequest(tasks: seq<Task>, id: int)
    requires SameShape(tasks, Fixtures.InitialTasks)
    requires Find(tasks, id).Some?
    ensures Find(tasks, id).value.reward > 0
    ensures |QuestRewardRequest(Find(tasks, id).value).title| > 0
  {
    Fixtures.InitialTasksWellFormed();
    var q := Find(tasks, id).value;
    var i :| 0 <= i < |tasks| && tasks[i] == q;
    assert q.(completed := Fixtures.InitialTasks[i].completed) == Fixtures.InitialTasks[i];
  }

  /** A quest confirmed while uncompleted is completed afterwards, so its
      board checkbox is disabled and no second confirmation can be raised for
      it the same day. */
  lemma ConfirmedQuestLocks(tasks: seq<Task>, id: int)
    requires Find(tasks, id).Some? && !Find(tasks, id).value.completed
    ensures Find(Toggle(tasks, id), id).Some?
    ensures !QuestCheckboxEnabled(Find(Toggle(tasks, id), id).value)
  {
    ToggleFound(tasks, id);
  }

  // ---- The rollover as written, with its timers deferred ----

  /** The work section's state as seen by the rollover. */
  datatype DayState = DayState(
    tasks: seq<Task>,
    isWorkDayCompleted: bool,
    lastSavedDate: int,
    savedRecords: seq<DailyWorkRecord>)

  /** `handleDateChange` in the order the browser runs it: the loop only
      schedules `saveDailyWorkRecord`'s one-second timers; the synchronous part
      then stores the date, reopens the day and resets the tasks, and only
      afterwards do the timers fire, each logging a record of the task list
      its closure captured and setting `isWorkDayCompleted` to true. */
  function DateChangeDeferred(s: DayState, currentDate: int, daysBetween: int, now: int, date: string): (r: DayState)
    ensures currentDate == s.lastSavedDate ==> r == s
    ensures currentDate != s.lastSavedDate ==>
      && r.tasks == ResetTasks(Fixtures.InitialTasks) && r.lastSavedDate == currentDate
      && r.savedRecords == s.savedRecords + Repeat(BuildRecord(s.tasks, now, date), BackfillCount(daysBetween))
      && (r.isWorkDayCompleted <==> daysBetween >= 1)
  {
    if currentDate == s.lastSavedDate then s
    else
      var n := BackfillCount(daysBetween);
      var reset := DayState(ResetTasks(Fixtures.InitialTasks), false, currentDate, s.savedRecords);
      reset.(
        savedRecords := reset.savedRecords + Repeat(BuildRecord(s.tasks, now, date), n),
        isWorkDayCompleted := if n > 0 then true else reset.isWorkDayCompleted)
  }

  /** As written, a rollover over a gap of at least one day leaves the new day
      already closed once the deferred saves have fired: the work list for the
      new day cannot be submitted. */
  lemma DeferredSavesCloseNewDay(s: DayState, currentDate: int, daysBetween: int, now: int, date: string)
    requires currentDate != s.lastSavedDate && daysBetween >= 1
    ensures DateChangeDeferred(s, currentDate, daysBetween, now, date).isWorkDayCompleted
  {
  }
}
