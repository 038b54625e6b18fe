# okane-note: a verified model of the allowance ledger

okane-note is a React app for a child's allowance. It has three parts:

- **The ledger.** An append-only list of transactions. Every entry records the running balance after it.
- **The work section.** A daily list of chores (お仕事) and a board of one-off quests (クエスト).
  - A confirmed quest pays its reward into the ledger as income.
  - Saving the day builds a daily work record.
  - A rollover check runs when the date changes. It backfills records for missed days, reopens the day and resets every task.
- **The balance card.** It shows the latest balance and a 30-day chart of balance, income and expense. It also has deposit and withdrawal buttons that open a small form.

The code base has two versions of the app:

- a split version: `app/page.tsx` with the components under `app/components/`;
- an older single-component version: `components/okane-note.tsx`, which also holds the settings popup and its edit-mode password.

Both versions share `lib/date-utils.ts` and the seed data of `data/initial-data.ts`.

The model is written in Dafny and follows the source's own form:

- **Classes for state that changes in place.**
  - `Ledger.LedgerStore` is the `transactionLogs` state.
  - `WorkSection.WorkDay` is the work section's state.
  - `Balance.BalancePanel` and `Balance.TransactionPopup` are the card and its form.
  - `OkaneNoteApp.OkaneNote` is the single-component version.
- **Functions and lemmas for the pure derivations.** These are the append rule, the list filters, the daily record, the chart rows, the axis maximum, the date helpers and the settings update.

Main results:

- **The ledger invariant.** Ids run 1..n, every entry is valid, and every balance is income minus expense so far. It holds for the seed data and is kept by every append. So the balance shown on the card is always the net of the whole log.
- **The chart shows one consistent picture.** For a log in time order, the window is a trailing segment of the log. The bars add up to the rise of the balance line across the window.
- **Quests pay only once.** A confirmed quest pays exactly one income entry, and afterwards it is completed, so its checkbox is disabled.
- **The daily record describes the task list exactly.** Its scheduled and completed summaries are those of the work tasks and the completed work tasks, in order. Its counts are their numbers, and its maximum reward is the completed plus the open work's rewards. Its schedule side does not depend on which tasks are ticked.
- **The rollover** saves exactly `min(max(daysBetween, 0), 7)` identical records, stores the date, reopens the day and resets the catalog.
- **`getNextSunday`** returns the earliest Sunday on or after its input.
- **`formatDate`** returns an 8-character `MM/DD(W)` string whose digits decode to the month and the day.

Modelling conventions:

- **Timestamps** are integers in milliseconds since the epoch. The model uses them wherever the source creates or compares ISO strings or `Date` objects. The clock (`new Date()`, `Date.now()`) is always a parameter.
- **Calendar dates** are integers, as local day numbers. Day 0 is Thursday, 1970-01-01.
- **`daysBetween`** in the rollover is an input.
- **Timers are steps that run at once.** A `setTimeout` callback runs inside the handler that schedules it. The one place where deferral changes the outcome is modelled separately under "## Findings".
- **`Math.max()` of nothing** is `-Infinity` in JavaScript; the model writes it as `None`.
- **The work section's catalog.** It is `dummyTasks` of `lib/supabase/dummy/tasks.ts`. Those rows are identical to `initialTasks` of `data/initial-data.ts`, so the model uses one constant, `Fixtures.InitialTasks`.

## Model

| member | source | states |
|---|---|---|
| Ledger.LastBalance | app/page.tsx:15 | The balance a new entry starts from: the last entry's balance, or 0 for an empty log. |
| Ledger.NewEntry | app/page.tsx:15-26 | The new entry has id length+1, is valid, carries the clock value and the request's amount, title, note and category. Its balance moves the last balance by the signed amount, and on a consistent log it is the net effect of the log with the entry added. |
| Ledger.Appended | app/page.tsx:14-28 | The new log has one more entry and keeps the old log as its prefix. The new entry has id length+1, is valid, carries the clock value and the request's amount, title, note and category. Its balance is the previous last balance (0 for an empty log) plus income or minus expense. |
| Ledger.TotalIsIncomeMinusExpense | app/page.tsx:15-18 | Adding income and subtracting expense entry by entry equals the income total minus the expense total. |
| Ledger.AppendKeepsConsistent | app/page.tsx:14-28 | An append keeps the ledger invariant: ids 1..n in order, every entry valid, every balance the net effect of the entries up to and including it. |
| Ledger.TotalConcat | app/page.tsx:15-18 | The net effect of a log split in two is the sum of the net effects of its parts. |
| Ledger.ConsistentPrefix | app/page.tsx:14-28 | Every prefix of a consistent log is consistent. |
| Ledger.LatestBalanceIsTotal | app/components/okane-note-balance.tsx:215 | In a consistent log the latest balance (0 for an empty log) is the net of the whole log, that is, total income minus total expense. |
| Ledger.AppendAllSpec | app/page.tsx:13-30 | Any run of appends on a consistent log keeps the old entries. It adds one entry per request, in order, with the next ids and the request fields and clock values, and the result is consistent. |
| Ledger.ExtendsStep | app/page.tsx:13-30 | One append followed by a run of appends extends the log by all the requests, in order, with consecutive ids. |
| Ledger.EntryBalance | app/page.tsx:15-18 | In a consistent log each entry's balance is income minus expense over the entries up to it. |
| Ledger.ReplayEntry | app/page.tsx:13-30 | The k-th entry after n appends from an empty log has id k+1, the k-th request's amount and category, and the balance income minus expense so far. |
| Ledger.ReplayFromEmpty | app/page.tsx:13-30 | n appends from an empty log give ids 1..n with the requests in order. Each balance is income minus expense over the entries so far. |
| Ledger.LedgerStore.constructor | app/page.tsx:11 | The store starts with the given log, and it satisfies the ledger invariant exactly when that log is consistent. |
| Ledger.LedgerStore.AddTransaction | app/page.tsx:11-30 | The stored log becomes the appended log, and the ledger invariant is preserved. |
| Tasks.Toggle | app/components/okane-note-work.tsx:108-119 | The list keeps its length. A task's completion flag flips exactly when its id matches, and every other field of every task is unchanged. |
| Tasks.ToggleTwice | app/components/okane-note-work.tsx:108-119 | Toggling the same id twice gives back the original list. |
| Tasks.ToggleMissing | app/components/okane-note-work.tsx:108-119 | Toggling an id no task has changes nothing. |
| Tasks.Find | app/components/okane-note-work.tsx:166 | `None` exactly when no task has the id. Otherwise it is the first task with that id. |
| Tasks.ToggleFound | app/components/okane-note-work.tsx:166-168 | Looking up a found id again after its toggle finds the same task with its flag flipped. |
| Tasks.QuestBoardList | app/components/okane-note-work.tsx:32 | A task is on the quest board exactly when it is a valid quest. |
| Tasks.TodayList | app/components/okane-note-work.tsx:246 | A task is on today's list exactly when it is a valid work task or a completed quest. |
| Tasks.BuildRecord | app/components/okane-note-work.tsx:143-153 | The record carries the clock as id, user 1 and the date. Each count is the length of its summary list, and completed ≤ scheduled ≤ number of tasks. |
| Tasks.RecordFacts | app/components/okane-note-work.tsx:143-153 | The scheduled summaries are exactly those of the work tasks, in list order, and the completed summaries those of the completed work tasks. So every summary comes from such a task, and every such task is summarised. The counts are the numbers of work tasks and of completed work tasks. The scheduled count is the completed count plus the open count. `maxPossibleReward` is the completed work's rewards plus the open work's rewards. With non-negative rewards, the completed rewards lie between 0 and `maxPossibleReward`. When all work is done, the two counts agree. |
| Tasks.WorkSplits | app/components/okane-note-work.tsx:143-150 | The work tasks split into the completed and the open ones, both in number and in reward sum. |
| Tasks.FilteredSummaries | app/components/okane-note-work.tsx:143-153 | The summaries of a filtered list are exactly the summaries of the tasks that pass the filter. |
| Tasks.CompletedRewardsBounded | app/components/okane-note-work.tsx:143-150 | With non-negative rewards, the rewards of the completed work tasks sum to at most the rewards of all work tasks. |
| Tasks.AllDoneFiltersAgree | app/components/okane-note-work.tsx:143-148 | When every work task is completed, the completed filter and the work filter give the same list. |
| Tasks.NonNegativeRewardSum | app/components/okane-note-work.tsx:150 | A sum of non-negative rewards is non-negative. |
| Tasks.WorkFilterKeepsShape | app/components/okane-note-work.tsx:148 | Filtering out the work tasks keeps two lists equal up to completion flags. |
| Tasks.RewardSumKeepsShape | app/components/okane-note-work.tsx:150 | Lists equal up to completion flags have the same reward sum. |
| Tasks.ScheduleIgnoresCompletion | app/components/okane-note-work.tsx:148-151 | Two task lists that differ only in completion flags have the same scheduled summaries and the same maximum reward. |
| Tasks.RecordScheduleStableUnderToggle | app/components/okane-note-work.tsx:148-151 | Toggling a task changes neither the scheduled tasks, nor their count, nor the maximum reward of the record. |
| Tasks.ResetTasks | app/components/okane-note-work.tsx:205 | The reset has the catalog's length, every task is uncompleted, and every other field is the catalog's. |
| Tasks.ShapeKept | app/components/okane-note-work.tsx:108-119 | Toggling and resetting keep the task list equal to the catalog up to completion flags. |
| WorkSection.BackfillCount | app/components/okane-note-work.tsx:186-200 | The number of records a rollover saves: daysBetween for a gap of 0..7 days, 7 beyond that, 0 for a gap that is not positive. It is never more than 7. |
| WorkSection.QuestRewardRequest | app/components/okane-note-work.tsx:169-174 | The reward request is income, amounts to the quest's reward and has an empty note. Its title is "クエスト報酬: " followed by the quest's title. |
| WorkSection.QuestRewardIsValidRequest | app/components/okane-note-work.tsx:166-174 | A quest found in a list shaped like the catalog has a positive reward, and its reward title is not empty. |
| WorkSection.ConfirmedQuestLocks | app/components/okane-note-work.tsx:47 | After a found, uncompleted quest is toggled, the lookup finds it completed, so its board checkbox is disabled. |
| WorkSection.WorkDay.constructor | app/components/okane-note-work.tsx:98-106 | Mounting gives the catalog, an open day, a closed dialog, no records, and the mount day as the last date seen. |
| WorkSection.WorkDay.ToggleTask | app/components/okane-note-work.tsx:108-119 | The tasks become their toggle, nothing else changes, and the catalog shape is kept. |
| WorkSection.WorkDay.SaveDailyWorkRecord | app/components/okane-note-work.tsx:140-158 | One record of the current tasks is appended and the day is closed. The tasks, the dialog and the last date seen are unchanged. |
| WorkSection.WorkDay.HandleQuestCompletion | app/components/okane-note-work.tsx:160-162 | The dialog opens for that quest id; nothing else changes. |
| WorkSection.WorkDay.CancelQuestCompletion | app/components/okane-note-work.tsx:297 | The dialog's cancel closes it and clears the pending id. Nothing else changes. |
| WorkSection.WorkDay.ConfirmQuestCompletion | app/components/okane-note-work.tsx:164-178 | If the pending id names a task, that task is toggled and exactly one income entry for its reward is appended. Otherwise tasks and ledger are unchanged. In both cases the dialog closes, and both invariants are kept. |
| WorkSection.WorkDay.HandleDateChange | app/components/okane-note-work.tsx:181-206 | The same date changes nothing. A new date appends `BackfillCount(daysBetween)` copies of the record of the old tasks. It then stores the date, reopens the day and resets the tasks to the catalog. |
| WorkSection.WorkDay.ClickTodayTask | app/components/okane-note-work.tsx:246-253 | A row of today's list toggles only when its checkbox is enabled; a closed day or a quest row changes nothing. |
| WorkSection.WorkDay.ClickQuest | app/components/okane-note-work.tsx:41-48 | A board row opens the confirmation dialog only for an uncompleted quest. |
| WorkSection.DateChangeDeferred | app/components/okane-note-work.tsx:140-157 | The rollover as the browser runs it. The same date changes nothing. A new date stores the date, resets the tasks and appends the backfill records. The day ends up closed exactly when the gap is at least one day. |
| WorkSection.DeferredSavesCloseNewDay | app/components/okane-note-work.tsx:142-157 | As written, with the timers firing after the reset, a rollover over a gap of at least one day leaves the new day closed. |
| Chart.LatestBalanceUnguarded | components/okane-note.tsx:321 | The unguarded read of the last entry needs a non-empty log. It then agrees with the guarded latest balance. |
| Chart.Window | app/components/okane-note-balance.tsx:219-223 | An entry is in the window exactly when it is in the log at or after the cutoff. |
| Chart.WindowConcat | app/components/okane-note-balance.tsx:223 | The window of a split log is the window of the first part followed by the window of the second. |
| Chart.WindowOfSortedIsSuffix | app/components/okane-note-balance.tsx:219-223 | For a log in time order, the window is a trailing segment of the log. |
| Chart.SortedWindowStart | app/components/okane-note-balance.tsx:219-223 | For a log in time order, returns where the window starts: the window is the log from that index on. |
| Chart.Last30DaysData | app/components/okane-note-balance.tsx:219-230 | For the given cutoff, there is one row per entry at or after it, in order. Each row copies the date and balance. Income minus expense is the entry's signed amount, and the bar of the other category is 0. |
| Chart.RowOf | app/components/okane-note-balance.tsx:225-230 | A row copies the entry's date and balance. Its income minus its expense is the entry's signed amount, one of the two bars is 0, and neither is negative for a non-negative amount. |
| Chart.MaxOf | app/components/okane-note-balance.tsx:239-240 | `None` exactly for no values. Otherwise it is one of the values and bounds all of them. |
| Chart.Max2 | app/components/okane-note-balance.tsx:241 | The larger of two values, with `None` as -Infinity: `None` only when both are, otherwise one of the two, and at least each of them. |
| Chart.MaxBarValue | app/components/okane-note-balance.tsx:239-241 | `None` exactly when there are no rows. Otherwise it bounds every income and expense bar and equals one of them. |
| Chart.BarNetMatchesTotal | app/components/okane-note-balance.tsx:225-230 | Rows whose bars match the entries' signed amounts add up to the entries' net effect. |
| Chart.BarNetIsWindowTotal | app/components/okane-note-balance.tsx:219-236 | The chart's bars add up to the net effect of the windowed entries. |
| Chart.SplitBalance | app/components/okane-note-balance.tsx:215 | Across a split of a consistent log, the balance rises by the net effect of the second part. |
| Chart.BarsExplainBalance | app/components/okane-note-balance.tsx:215-236 | Take a consistent log in time order. The bars of the window add up to the latest balance minus the balance just before the window. |
| Balance.CategoryOf | app/components/okane-note-balance.tsx:244 | A popup type maps to income exactly when it is a deposit. |
| Balance.PopupTypeOf | app/components/okane-note-balance.tsx:334 | A category maps to a deposit exactly when it is income. |
| Balance.AmountValue | app/components/okane-note-balance.tsx:51 | `Number(amount)` of the field: the entered number, or 0 for an empty field. |
| Balance.PopupMappingRoundTrip | app/components/okane-note-balance.tsx:244-334 | The deposit/withdrawal and income/expense mappings are inverse bijections, and deposit is income. |
| Balance.TransactionPopup.constructor | app/components/okane-note-balance.tsx:37-39 | The form starts with empty amount, title and note. |
| Balance.TransactionPopup.Edit | app/components/okane-note-balance.tsx:77-105 | Typing into the form sets its amount, title and note. |
| Balance.TransactionPopup.HandleSubmit | app/components/okane-note-balance.tsx:48-60 | A filled-in form is handed on as a request with its amount, title and note. The category is income exactly for a deposit, and the form is cleared. |
| Balance.BalancePanel.constructor | app/components/okane-note-balance.tsx:206-210 | The card starts with its dialog closed, the income category and an empty form. |
| Balance.BalancePanel.OpenTransactionPopup | app/components/okane-note-balance.tsx:243-246 | The dialog opens with the category of the chosen popup type. |
| Balance.BalancePanel.CloseTransactionPopup | app/components/okane-note-balance.tsx:248-250 | The dialog closes and keeps the category. |
| Balance.BalancePanel.HandleAddTransaction | app/components/okane-note-balance.tsx:252-258 | The request reaches the ledger unchanged, as one append, and the invariant is kept. |
| Balance.BalancePanel.SubmitPopup | app/components/okane-note-balance.tsx:331-336 | Submitting through the card appends an entry with the form's fields and the category the card was opened for. It then closes the dialog and clears the form. |
| Settings.WithField | components/okane-note.tsx:456-464 | The named field takes the new value and every other field keeps its value. |
| Settings.WithSetting | components/okane-note.tsx:456-464 | That field of that section is set. Every other field of that section, and every other section, is unchanged. |
| Settings.WithSettingLaws | components/okane-note.tsx:456-464 | Writing back a field's own value changes nothing, and a second write to the same place overrides the first. |
| Settings.EditModeAfterToggle | components/okane-note.tsx:443-454 | Edit mode turns on from off only when asked with the password "1234". Unchecking always turns it off, and any other call sets it to the requested value. |
| DateUtils.Weekday | lib/date-utils.ts:4 | The weekday index lies in 0..6. |
| DateUtils.NextSunday | lib/date-utils.ts:8-12 | The result lies between the input and six days after it. |
| DateUtils.NextSundayIsEarliest | lib/date-utils.ts:8-12 | The result is a Sunday at most six days after the input. It is the input itself when that is a Sunday, and no Sunday lies between them. |
| DateUtils.CivilFromDays | lib/date-utils.ts:2-3 | Month lies in 1..12 and day of month in 1..31 for every day number. |
| DateUtils.DayOfEra | lib/date-utils.ts:2-3 | A day of a 400-year era falls in year 0..399 of the era, on day 0..365 of that year. |
| DateUtils.EpochIsThursdayJanuaryFirst | lib/date-utils.ts:2-4 | Day 0 is Thursday, 1970-01-01. |
| DateUtils.NewYear2024 | lib/date-utils.ts:2-4 | Day 19723 is Monday, 2024-01-01. |
| DateUtils.LeapDay2024 | lib/date-utils.ts:2-3 | Day 19782 is 2024-02-29. |
| DateUtils.Pad2 | lib/date-utils.ts:2-3 | Two decimal digits that decode back to the number. |
| DateUtils.FormatDate | lib/date-utils.ts:1-6 | Eight characters `MM/DD(W)`. Positions 0, 1, 3 and 4 are decimal digits, and they decode to the month and the day. The weekday character is that day's name. |
| Fixtures.InitialLogsConsistent | data/initial-data.ts:3-9 | The seed log satisfies the ledger invariant, and its latest balance is 9700. |
| Fixtures.InitialLogsChronological | data/initial-data.ts:3-9 | Seed amounts are positive and seed timestamps strictly increase. |
| Fixtures.InitialTasksWellFormed | data/initial-data.ts:11-17 | The catalog has ids 1..5, all distinct. Ids 1-2 are work and 3-5 are quests. All tasks are valid and uncompleted, with positive rewards. |
| Fixtures.CatalogSplit | data/initial-data.ts:11-17 | The catalog's first two rows all pass the work filter and its last three rows none. |
| Fixtures.InitialWork | data/initial-data.ts:11-17 | The work tasks of the catalog are its first two rows. |
| Fixtures.InitialRecord | data/initial-data.ts:11-17 | Saving the day on the fresh catalog records 2 scheduled tasks, 0 completed and a maximum reward of 20. |
| OkaneNoteApp.OkaneNote.constructor | components/okane-note.tsx:280-317 | Mounting gives the seed log and the catalog, an open day, a closed dialog, no records, edit mode off and the default settings. |
| OkaneNoteApp.OkaneNote.LatestBalance | components/okane-note.tsx:321 | The balance shown is the last entry's, and it equals total income minus total expense. |
| OkaneNoteApp.OkaneNote.AddTransaction | components/okane-note.tsx:350-369 | One entry is appended and the shown balance moves by its signed amount. |
| OkaneNoteApp.OkaneNote.ToggleTask | components/okane-note.tsx:371-383 | The tasks become their toggle. The completion flag, the dialog, the last date seen and the saved records are unchanged. |
| OkaneNoteApp.OkaneNote.SaveDailyWorkRecord | components/okane-note.tsx:403-421 | One record of the current tasks is appended and the day is closed. The tasks, the dialog and the last date seen are unchanged. |
| OkaneNoteApp.OkaneNote.ConfirmQuestCompletion | components/okane-note.tsx:427-441 | A found quest is toggled and paid once into this component's own log. Otherwise tasks and log are unchanged. The dialog closes, and the completion flag, the last date seen and the saved records are unchanged. |
| OkaneNoteApp.OkaneNote.CancelQuestCompletion | components/okane-note.tsx:656 | The dialog's cancel closes it. The tasks, the completion flag, the last date seen and the saved records are unchanged. |
| OkaneNoteApp.OkaneNote.HandleDateChange | components/okane-note.tsx:472-499 | The same date changes nothing. A new date appends `BackfillCount(daysBetween)` copies of the record of the old tasks, stores the date, reopens the day and resets the catalog. The dialog is unchanged. |
| OkaneNoteApp.OkaneNote.HandleEditModeToggle | components/okane-note.tsx:443-454 | The mode becomes `EditModeAfterToggle` of the old mode, the request and the prompt's answer. The settings are unchanged. |
| OkaneNoteApp.OkaneNote.HandleSettingsChange | components/okane-note.tsx:456-464 | The settings become `WithSetting` of the old settings, and the mode is unchanged. |
| OkaneNoteApp.OkaneNote.HandleSaveSettings | components/okane-note.tsx:466-470 | Edit mode turns off and the settings are kept. |
| OkaneNoteApp.LoadTimeDateCheckIsNoOp | components/okane-note.tsx:472-499 | Mounting and then running the date check on the same day leaves the catalog, an open day, no saved records, the seed log and a balance of 9700. |

## Left out

- Compound interest (`calculateCompoundInterest` and the "next interest" line): floating-point arithmetic, outside the modelled core.
- Supabase, the `lib/db` and `lib/dummy-db` modules, and the settings pages under `app/setting`: persistence and separate screens, not part of this model.
- Rendering, the swipe and arrow-key toggle between the list and the board, the reward animation and the `isCalculating` overlay: presentation only. They change no modelled state.
- `console.log`, `alert` and the `prompt` dialog are I/O. The prompt's answer is a parameter of `HandleEditModeToggle`.
- The seed log of both app versions is `dummyTransactions` from `lib/supabase/dummy/transactions`. That file is not part of this model, so the model seeds with the rows of `data/initial-data.ts`.
- Chart.Last30DaysData: the cutoff is an input. The source computes it by moving the current local date back 30 calendar days with `setDate(getDate() - 30)`. That calendar arithmetic, including daylight-saving shifts, is not modelled, so the model does not state which millisecond the cutoff is.
- All amounts, balances and timestamps are unbounded integers. JavaScript numbers are doubles, which lose integer precision above 2^53. The model does not capture that rounding.
- `new Date().toDateString()` and the floor of the millisecond difference are not modelled: dates are day numbers, and `daysBetween` is an input. Daylight-saving effects on that floor are therefore not captured.
- The one-minute `setInterval` and its cleanup are not modelled. Each tick is one call of `HandleDateChange`.
- components/okane-note.tsx's own `TransactionPopup` (lines 104-128) is the same form as the balance card's and is modelled once, by `Balance.TransactionPopup`. The older file wires it straight to its `addTransaction`.
- OkaneNoteApp.OkaneNote.AddTransaction: the older `addTransaction` reads the log its closure captured, not the newest state, one second later. Two appends within that second would both start from the same last entry. The modal overlay blocks the UI during that second, and the model runs the append at once, so this race is not represented.
- OkaneNoteApp.OkaneNote.HandleDateChange: the older file registers the rollover effect with no dependencies. The interval therefore keeps the first render's `saveDailyWorkRecord`, which snapshots the first render's tasks. The model snapshots the current tasks.
- DateUtils.CivilFromDays: only the ranges of month and day, and three fixed dates, are proved. Agreement with JavaScript's `Date` for every day is not stated.
- Tasks.RecordFacts: `maxPossibleReward` sums the rewards of every work task, completed or not; the model follows the code (see `Tasks.ScheduleIgnoresCompletion`). It is not the sum of the completed tasks' rewards.
- The ledger accepts any request. The form's `required`, `min="1"` and `step="1"` checks belong to the browser, so they appear only as the precondition of `Balance.TransactionPopup.HandleSubmit`.
- The rollover's loops compute a date for each missed day but never pass it to `saveDailyWorkRecord`. Every backfilled record is therefore the same snapshot, with today's date and id, and the model states exactly that.

## Findings

| source | as written | input that shows it | evidently intended | confidence | as-written member | corrected member |
|---|---|---|---|---|---|---|
| app/components/okane-note-work.tsx:140-157,186-205 | The rollover calls `saveDailyWorkRecord` once per missed day, but each call only schedules a one-second timer. The rollover then stores the date, calls `setIsWorkDayCompleted(false)` and resets the tasks. When the timers fire, they set `isWorkDayCompleted` to true. | The app is open across midnight, so the next tick sees a new date with `daysBetween = 1`. One second later the new day is already marked complete, and its "今日のおしごと完了" button is disabled. | The backfill saves close the old days, and the new day starts open with the catalog reset. | not executed | WorkSection.DeferredSavesCloseNewDay | WorkSection.WorkDay.HandleDateChange |
| components/okane-note.tsx:403-421,472-499 | The older single-component version has the same rollover. `saveDailyWorkRecord` schedules a one-second timer that sets `isWorkDayCompleted` to true, and `handleDateChange` calls it once per missed day before reopening the day and resetting the tasks. | As in the row above: a tick just after midnight with `daysBetween = 1` marks the new day complete one second later. | The backfill saves close the old days, and the new day starts open with the catalog reset. | not executed | WorkSection.DeferredSavesCloseNewDay | OkaneNoteApp.OkaneNote.HandleDateChange |
