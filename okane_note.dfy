/** The single-component version of the app (components/okane-note.tsx): one
    state holding the ledger, the work section, the edit-mode flag and the
    settings. Its work handlers are those of the work section and its append
    is the ledger's, run on its own state. */
module OkaneNoteApp {
  import opened Seqs
  import opened Ledger
  import opened Tasks
  import opened WorkSection
  import opened Settings
  import Chart
  import Fixtures

  class OkaneNote {
    const ledger: LedgerStore
    const work: WorkDay
    var isEditMode: bool
    var settingsData: SettingsData

    /** The log is consistent and never empty, so the unguarded latest balance
        is always defined; the tasks keep the catalog's shape. */
    ghost predicate Valid()
      reads this, ledger, work
    {
      ledger.Valid() && |ledger.logs| > 0 && work.Valid()
    }

    /** Mounting with the seed log and the catalog on day `today`. */
    constructor (today: int)
      ensures Valid() && fresh(ledger) && fresh(work)
      ensures ledger.logs == Fixtures.InitialTransactionLogs && work.tasks == Fixtures.InitialTasks
      ensures !work.isWorkDayCompleted && work.lastSavedDate == today
      ensures work.savedRecords == [] && work.confirmationDialog == ClosedDialog
      ensures !isEditMode && settingsData == DefaultSettings
    {
      Fixtures.InitialLogsConsistent();
      ledger := new LedgerStore(Fixtures.InitialTransactionLogs);
      work := new WorkDay(today);
      isEditMode := false;
      settingsData := DefaultSettings;
    }

    /** `latestBalance`: the last entry's balance; it is the net of the log. */
    function LatestBalance(): (b: int)
      reads this, ledger, work
      requires Valid()
      ensures b == LastBalance(ledger.logs)
      ensures b == AmountSum(ledger.logs, Income) - AmountSum(ledger.logs, Expense)
    {
      LatestBalanceIsTotal(ledger.logs);
      Chart.LatestBalanceUnguarded(ledger.logs)
    }

    /** `addTransaction`. */
    method AddTransaction(req: Request, now: int)
      requires Valid()
      modifies ledger
      ensures Valid()
      ensures ledger.logs == Appended(old(ledger.logs), req, now)
      ensures LatestBalance() == old(LatestBalance()) + Signed(req.category, req.amount)
    {
      ledger.AddTransaction(req, now);
    }

    /** `toggleTask`. */
    method ToggleTask(id: int)
      requires Valid()
      modifies work
      ensures Valid()
      ensures work.tasks == Toggle(old(work.tasks), id)
      ensures work.isWorkDayCompleted == old(work.isWorkDayCompleted)
      ensures work.confirmationDialog == old(work.confirmationDialog)
      ensures work.lastSavedDate == old(work.lastSavedDate) && work.savedRecords == old(work.savedRecords)
    {
      work.ToggleTask(id);
    }

    /** `saveDailyWorkRecord`. */
    method SaveDailyWorkRecord(now: int, date: string)
      requires Valid()
      modifies work
      ensures Valid()
      ensures work.savedRecords == old(work.savedRecords) + [BuildRecord(old(work.tasks), now, date)]
      ensures work.isWorkDayCompleted && work.tasks == old(work.tasks)
      ensures work.confirmationDialog == old(work.confirmationDialog)
      ensures work.lastSavedDate == old(work.lastSavedDate)
    {
      work.SaveDailyWorkRecord(now, date);
    }

    /** `confirmQuestCompletion`, paying into this component's own log. */
    method ConfirmQuestCompletion(now: int)
      requires Valid()
      modifies work, ledger
      ensures Valid()
      ensures work.confirmationDialog == ClosedDialog
      ensures work.isWorkDayCompleted == old(work.isWorkDayCompleted)
      ensures work.lastSavedDate == old(work.lastSavedDate) && work.savedRecords == old(work.savedRecords)
      ensures var pending := old(work.confirmationDialog.taskId);
        var found := if pending.Some? then Find(old(work.tasks), pending.value) else None;
        if found.Some? then
          && work.tasks == Toggle(old(work.tasks), found.value.id)
          && ledger.logs == Appended(old(ledger.logs), QuestRewardRequest(found.value), now)
        else
          work.tasks == old(work.tasks) && ledger.logs == old(ledger.logs)
    {
      work.ConfirmQuestCompletion(ledger, now);
    }

    /** The confirmation dialog's cancel button. */
    method CancelQuestCompletion()
      requires Valid()
      modifies work
      ensures Valid()
      ensures work.confirmationDialog == ClosedDialog
      ensures work.tasks == old(work.tasks) && work.isWorkDayCompleted == old(work.isWorkDayCompleted)
      ensures work.lastSavedDate == old(work.lastSavedDate) && work.savedRecords == old(work.savedRecords)
    {
      work.CancelQuestCompletion();
    }

    /** `handleDateChange`. */
    method HandleDateChange(currentDate: int, daysBetween: int, now: int, date: string)
      requires Valid()
      modifies work
      ensures Valid()
      ensures currentDate == old(work.lastSavedDate) ==>
        && work.tasks == old(work.tasks) && work.savedRecords == old(work.savedRecords)
        && work.isWorkDayCompleted == old(work.isWorkDayCompleted)
        && work.lastSavedDate == old(work.lastSavedDate)
      ensures currentDate != old(work.lastSavedDate) ==>
        && work.savedRecords == old(work.savedRecords)
             + Repeat(BuildRecord(old(work.tasks), now, date), BackfillCount(daysBetween))
        && work.lastSavedDate == currentDate && !work.isWorkDayCompleted
        && work.tasks == ResetTasks(Fixtures.InitialTasks)
      ensures work.confirmationDialog == old(work.confirmationDialog)
    {
      work.HandleDateChange(currentDate, daysBetween, now, date);
    }

    /** `handleEditModeToggle(checked)`; `entered` is the prompt's answer. */
    method HandleEditModeToggle(checked: bool, entered: Option<string>)
      modifies this
      ensures isEditMode == EditModeAfterToggle(old(isEditMode), checked, entered)
      ensures settingsData == old(settingsData)
    {
      if checked && !isEditMode {
        if entered == Some(EditPassword) {
          isEditMode := true;
        }
      } else {
        isEditMode := checked;
      }
    }

    /** `handleSettingsChange(section, field, value)`. */
    method HandleSettingsChange(section: SectionKey, field: Field, value: SettingValue)
      modifies this
      ensures settingsData == WithSetting(old(settingsData), section, field, value)
      ensures isEditMode == old(isEditMode)
    {
      settingsData := WithSetting(settingsData, section, field, value);
    }

    /** `handleSaveSettings`: leave edit mode, keeping the settings. */
    method HandleSaveSettings()
      modifies this
      ensures !isEditMode && settingsData == old(settingsData)
    {
      isEditMode := false;
    }
  }

  /** Scenario: mounting and the load-time date check change nothing, since
      `lastSavedDate` starts at today: the app shows the catalog, an open day,
      no saved records and the seed balance of 9700. */
  method LoadTimeDateCheckIsNoOp(today: int, daysBetween: int, now: int, date: string) returns (app: OkaneNote)
    ensures app.Valid()
    ensures app.work.tasks == Fixtures.InitialTasks && !app.work.isWorkDayCompleted
    ensures app.work.savedRecords == [] && app.work.lastSavedDate == today
    ensures app.ledger.logs == Fixtures.InitialTransactionLogs && app.LatestBalance() == 9700
  {
    app := new OkaneNote(today);
    app.HandleDateChange(today, daysBetween, now, date);
    Fixtures.InitialLogsConsistent();
  }
}
