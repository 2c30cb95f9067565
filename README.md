# tempo-flow-planner core, in Dafny

A model of the logic of a client-side productivity app:

- a **task store** (`useTasks`), and an **event store** (the calendar service and its provider);
- the **reconciliation** that keeps the two linked. It mirrors unreferenced events into tasks, propagates priority and edits to the linked event, cascades deletes, and handles "add to calendar";
- a **Pomodoro timer** state machine;
- an **expense ledger** with totals, a multi-criteria filter, per-category totals and a top-5 list;
- the small selectors of the dashboard, the task row, the task input, and the day and month calendar views.

State that the source updates in place is a `class`:

- `CalendarProvider` holds `events`, `selectedDate` and `view`;
- `TaskBoard` holds `tasks`, `filter` and the editor state, and shares a `CalendarProvider`;
- `FocusTimer`, `ExpenseLedger` and `AddForm`.

Each handler is one method. Its `ensures` ties the new state to a specification function of the old state. The properties the app relies on are lemmas about those functions.

Modelling conventions:

- Time (`Clock`) is an integer number of milliseconds of local time.
- A calendar day is an integer. The local zone is UTC, so "yyyy-MM-dd" formatting, `isSameDay` and `startOfWeek` (Sunday) are integer arithmetic.
- Ids drawn from `Math.random` or `Date.now()` are parameters, and so is "now".
- JavaScript truthiness is explicit:
  - a `dueDate` is `Unset`, `Blank` (the empty string) or `OnDay(day)`;
  - an `eventId` counts as linked only when it is set and non-empty (`TaskTypes.IsLinked`).
- Money is integer cents. Focus hours are `real`.
- Strings are compared character by character (`Text.StrLess`); a Dafny `char` is a code point, so this is JavaScript's order for text within the Basic Multilingual Plane. `trim()` removes the ECMAScript white-space and line-terminator code points.

Modules, one per source file:

| module | source file |
|---|---|
| `CalendarService` | `calendarService.ts` |
| `CalendarContext` | `CalendarContext.tsx` |
| `TaskTypes` | `types/task.ts` |
| `UseTasks` | `useTasks.tsx` |
| `Focus` | `Focus.tsx` |
| `ExpenseTracker` | `ExpenseTracker.tsx` |
| `Dashboard` | `Dashboard.tsx` |
| `TaskItem` | `TaskItem.tsx` |
| `TaskAddForm` | `TaskAddForm.tsx` |
| `DayView` | `DayView.tsx` |
| `MonthView` | `MonthView.tsx` |

Shared helpers:

- `Seqs`: an order-preserving `filter` specified by `Selects`, plus `slice(0, n)`;
- `Clock`;
- `Text`: `toString`, `padStart`, `trim` and string `<`;
- `Wrappers`: `Option`.

## Model

| member | source | states |
|---|---|---|
| CalendarService.CreateEvent | src/services/calendarService.ts:114-121 | one event is appended at the end, carrying the draft's fields and the fresh id; the old list is an unchanged prefix |
| CalendarService.UpdateEvent | src/services/calendarService.ts:124-126 | length kept; every event with the id becomes the given event, every other event is unchanged |
| CalendarService.UpdateAbsentIsNoop | src/services/calendarService.ts:124-126 | updating with an id no event has changes nothing |
| CalendarService.UpdateIdempotent | src/services/calendarService.ts:124-126 | updating twice with the same event is updating once |
| CalendarService.UpdateAt | src/services/calendarService.ts:124-126 | with distinct ids, the update replaces exactly the one matching position and keeps ids distinct |
| CalendarService.DeleteEvent | src/services/calendarService.ts:129-131 | the result is the order-preserving selection of the events whose id differs, so no event with the id remains |
| CalendarService.DeleteAbsentIsNoop | src/services/calendarService.ts:129-131 | deleting an id no event has changes nothing |
| CalendarService.DeleteIdempotent | src/services/calendarService.ts:129-131 | deleting twice is deleting once |
| CalendarService.DeleteUndoesCreate | src/services/calendarService.ts:114-131 | creating under a fresh id and deleting that id gives back the original list |
| Seqs.Find | src/hooks/useTasks.tsx:113 | `find`: nothing exactly when no element passes, otherwise the element at the first index that passes |
| CalendarService.FindEvent | src/hooks/useTasks.tsx:113 | `find` by id: nothing exactly when no event has the id, otherwise the event at an index with that id before which no event has it |
| CalendarService.FindEventAt | src/hooks/useTasks.tsx:113 | with distinct ids, `find` returns the event at the unique matching index |
| CalendarService.EventsForDay | src/services/calendarService.ts:94-100 | order-preserving selection of the events whose start falls on the day |
| CalendarService.EventsForWeek | src/services/calendarService.ts:103-111 | order-preserving selection of the events starting between start and end of the week, both ends inclusive |
| CalendarService.WeekIsSevenDays | src/services/calendarService.ts:103-111 | that inclusive millisecond range is exactly the seven days Sunday to Saturday of the week |
| CalendarService.MockEvents | src/services/calendarService.ts:15-91 | eight events, each starting on a day from the Monday to the Friday of the base date's week |
| CalendarService.MockEventsIds | src/services/calendarService.ts:19-88 | the fixture has eight events with ids "1" to "8", all distinct |
| CalendarService.MockEventsWellFormed | src/services/calendarService.ts:19-88 | every fixture event ends after it starts |
| CalendarService.MockEventsInWeek | src/services/calendarService.ts:15-91 | every fixture event starts Monday to Friday of the base date's week, so the week query returns the whole fixture |
| Clock.WeekStartDay | src/services/calendarService.ts:16 | `startOfWeek`: the Sunday at or before the day, within the six days before it |
| Clock.StartOfWeek | src/services/calendarService.ts:16 | `startOfWeek`: midnight (hour 0) of the week's Sunday, not after the instant |
| Clock.EndOfWeek | src/services/calendarService.ts:17 | `endOfWeek`: an instant of the Saturday six days after that Sunday, the last one, since the next millisecond is on the following day |
| Clock.WeekHoldsInstant | src/services/calendarService.ts:16-17 | an instant lies between the start and the end of its own week |
| Clock.At | src/services/calendarService.ts:23 | `yyyy-MM-ddThh:mm` of a day falls on that day, at that hour and minute, on a whole minute |
| CalendarContext.CalendarProvider.constructor | src/context/CalendarContext.tsx:19-21 | no events, the selected date is now, week view |
| CalendarContext.CalendarProvider.Mount | src/context/CalendarContext.tsx:23-27 | the events become the fixture for the selected date; date and view unchanged |
| CalendarContext.CalendarProvider.AddEvent | src/context/CalendarContext.tsx:29-31 | events become `createEvent` of the old events; date and view unchanged |
| CalendarContext.CalendarProvider.EditEvent | src/context/CalendarContext.tsx:33-35 | events become `updateEvent` of the old events; date and view unchanged |
| CalendarContext.CalendarProvider.RemoveEvent | src/context/CalendarContext.tsx:37-39 | events become `deleteEvent` of the old events; date and view unchanged |
| CalendarContext.CalendarProvider.SetSelectedDate | src/context/CalendarContext.tsx:20 | only the selected date changes |
| CalendarContext.CalendarProvider.SetView | src/context/CalendarContext.tsx:21 | only the view changes |
| UseTasks.TypeToPriority | src/hooks/useTasks.tsx:60-67 | high exactly for work, low exactly for personal, medium exactly for focus and other |
| UseTasks.PriorityToType | src/hooks/useTasks.tsx:69-76 | a right inverse of the type-to-priority mapping that never yields other |
| UseTasks.TypeRoundTripOnlyWithoutOther | src/hooks/useTasks.tsx:60-76 | type to priority and back is the identity exactly on the types other than other |
| UseTasks.PriorityIndex | src/hooks/useTasks.tsx:107-108 | `indexOf` in `['high', 'medium', 'low']`: the position at which the list holds the priority |
| UseTasks.NextPriority | src/hooks/useTasks.tsx:107-110 | the next priority sits one place further in `['high', 'medium', 'low']`, wrapping around, so high to medium to low to high; it always differs from the current one |
| UseTasks.NextPriorityThrice | src/hooks/useTasks.tsx:107-110 | three steps of the cycle come back to the start |
| UseTasks.Unmirrored | src/hooks/useTasks.tsx:33-37 | order-preserving selection of the events whose id no task's truthy eventId names |
| UseTasks.MirrorTask | src/hooks/useTasks.tsx:40-50 | the task for an event: id "task-" + event id, open, mapped priority, due on the start day, notes from a non-empty description, linked to the event |
| UseTasks.Mirrored | src/hooks/useTasks.tsx:32-52 | the old tasks stay as a prefix; every appended task is open and carries an event id |
| UseTasks.LinkedIdsAfterMirror | src/hooks/useTasks.tsx:32-58 | after a pass, an event is referenced iff it was before or its id is non-empty |
| UseTasks.MirrorAppends | src/hooks/useTasks.tsx:52 | existing tasks stay in front unchanged; one mirrored task per unreferenced event follows, in event order |
| UseTasks.MirrorIdempotent | src/hooks/useTasks.tsx:32-58 | with non-empty event ids, a second pass finds nothing to mirror and changes nothing |
| UseTasks.MirrorRepeatsEmptyId | src/hooks/useTasks.tsx:33-36 | an event with the empty id is unreferenced again after every pass |
| UseTasks.Synced | src/hooks/useTasks.tsx:33-39 | every event is referenced by a task exactly when the effect finds no new events |
| UseTasks.SyncedNothingToMirror | src/hooks/useTasks.tsx:35-39 | when every event is referenced, the pass adds no task |
| UseTasks.FilteredTasks | src/hooks/useTasks.tsx:78-82 | order-preserving selection of the tasks the filter admits |
| UseTasks.FilterModes | src/hooks/useTasks.tsx:78-82 | `all` keeps every task; `completed` and `active` hold only completed and only open tasks and together all of them |
| UseTasks.SimpleTasks | src/hooks/useTasks.tsx:84 | order-preserving selection of the shown tasks with a missing or empty due date |
| UseTasks.ComplexTasks | src/hooks/useTasks.tsx:85 | order-preserving selection of the shown tasks with a due date |
| UseTasks.SimpleComplexPartition | src/hooks/useTasks.tsx:84-85 | the two lists split the shown tasks: multisets and lengths add up, both in list order |
| UseTasks.NewTask | src/hooks/useTasks.tsx:88-93 | the new task is open, medium priority, with no due date and no link |
| UseTasks.ToggledComplete | src/hooks/useTasks.tsx:98-102 | length kept; each task differs from the old one at most in `completed` |
| UseTasks.ToggleCompleteEffect | src/hooks/useTasks.tsx:98-102 | length kept; `completed` flips exactly on the tasks with the id, no other field or task changes |
| UseTasks.ToggleCompleteTwice | src/hooks/useTasks.tsx:98-102 | toggling twice gives the original list |
| UseTasks.ToggledPriority | src/hooks/useTasks.tsx:104-126 | length kept; each task differs from the old one at most in its priority |
| UseTasks.TogglePriorityEffect | src/hooks/useTasks.tsx:104-126 | the tasks with the id move one step along the cycle; everything else is unchanged |
| UseTasks.TogglePriorityThrice | src/hooks/useTasks.tsx:104-126 | three toggles give the original list |
| UseTasks.PriorityEdits | src/hooks/useTasks.tsx:112-120 | at most one `editEvent` per task, each for an event of this render's list |
| UseTasks.ApplyEdits | src/context/CalendarContext.tsx:33-35 | applying the queued updates keeps the length and the id at every position |
| UseTasks.TogglePriorityRetypesLinkedEvent | src/hooks/useTasks.tsx:112-119 | with unique ids, toggling a task linked to an existing event changes only that event, and only its type, to the mapped new priority |
| UseTasks.TogglePriorityDanglingKeepsEvents | src/hooks/useTasks.tsx:112-120 | for any task list, when every task with the id is unlinked or has a dangling link, the events stay unchanged |
| UseTasks.FindTask | src/hooks/useTasks.tsx:129 | nothing exactly when no task has the id, otherwise the task at an index with the id before which no task has it |
| UseTasks.TasksAfterDelete | src/hooks/useTasks.tsx:135 | order-preserving selection of the tasks whose id differs |
| UseTasks.EventsAfterDelete | src/hooks/useTasks.tsx:129-133 | a subsequence of the events, and all of them when no task has the id |
| UseTasks.DeleteCascade | src/hooks/useTasks.tsx:128-135 | no task with the id survives and all others do; for the first index holding the id, a linked task's event is deleted, and no link or a missing event leaves the events unchanged; no task with the id leaves them unchanged too |
| UseTasks.DeleteKeepsSynced | src/hooks/useTasks.tsx:128-135 | with unique task ids, a delete from a state where every event is referenced keeps every remaining event referenced |
| UseTasks.CalendarDraft | src/hooks/useTasks.tsx:161-172 | the draft starts at midnight of the due day and lasts one hour, with mapped type, the notes as description and an empty location |
| UseTasks.AddToCalendarOutcome | src/hooks/useTasks.tsx:143-159 | the handler proceeds exactly for a task with a due date and no link; no due date is reported first |
| UseTasks.LinkTask | src/hooks/useTasks.tsx:178-180 | length kept; every task with the id gets exactly that `eventId` and nothing else changes on it, linked unless the id is empty; every other task is unchanged |
| UseTasks.StaleLinkLeavesNewEventUnmirrored | src/hooks/useTasks.tsx:174-180 | as written, the task is linked to the previously-last event, an id other than the new one, and the new event stays unreferenced |
| UseTasks.FreshLinkKeepsSynced | src/hooks/useTasks.tsx:174-180 | linking to the created event's own id keeps every event referenced |
| UseTasks.ReplaceTask | src/hooks/useTasks.tsx:194-196 | length kept; every task with the updated task's id becomes the updated task, the others are unchanged |
| UseTasks.RetimedEvent | src/hooks/useTasks.tsx:202-217 | id and location kept, title, mapped type and notes copied, a one-hour slot from midnight of the due day or from now |
| UseTasks.EventsAfterUpdate | src/hooks/useTasks.tsx:199-219 | length and the id at every position kept; an unlinked task changes no event |
| UseTasks.UpdatePropagates | src/hooks/useTasks.tsx:199-219 | with distinct event ids, the linked event, and no other, is rewritten; no link or a dangling one changes no event |
| UseTasks.Restored | src/hooks/useTasks.tsx:16-26 | a parsed list replaces the tasks, an unparsable one empties them, a missing entry leaves them |
| UseTasks.TaskBoard.constructor | src/hooks/useTasks.tsx:9-14 | no tasks, filter `all`, editor closed, sharing the given calendar provider |
| UseTasks.TaskBoard.LoadSaved | src/hooks/useTasks.tsx:16-26 | the tasks become the restored list; nothing else changes |
| UseTasks.TaskBoard.Mirror | src/hooks/useTasks.tsx:32-58 | the tasks become the mirrored list, and the count returned is the number of unreferenced events |
| UseTasks.TaskBoard.SetFilter | src/hooks/useTasks.tsx:12 | only the filter changes |
| UseTasks.TaskBoard.HandleAddTask | src/hooks/useTasks.tsx:87-96 | the new task is appended; nothing else changes |
| UseTasks.TaskBoard.HandleToggleComplete | src/hooks/useTasks.tsx:98-102 | the tasks become the toggled list; nothing else changes |
| UseTasks.TaskBoard.TogglePriorityCallback | src/hooks/useTasks.tsx:105-125 | the `map` callback for one task: the task moves one step along the cycle if it has the id, and the calendar receives that task's type edit and no other change |
| UseTasks.TaskBoard.HandleTogglePriority | src/hooks/useTasks.tsx:104-126 | the tasks become the toggled list; the calendar receives, in task order, one type edit per matching linked task found among this render's events |
| UseTasks.TaskBoard.HandleDeleteTask | src/hooks/useTasks.tsx:128-141 | the tasks and events become the delete-cascade lists; date, view and editor unchanged |
| UseTasks.TaskBoard.HandleAddToCalendar | src/hooks/useTasks.tsx:143-186 | refused: nothing changes; otherwise one event appended and the task linked to the event that was last before the append |
| UseTasks.TaskBoard.HandleAddToCalendarFixed | src/hooks/useTasks.tsx:143-186 | the same, except the task is linked to the created event's id |
| UseTasks.TaskBoard.HandleEditTask | src/hooks/useTasks.tsx:188-191 | the editor opens on the task; tasks unchanged |
| UseTasks.TaskBoard.HandleUpdateTask | src/hooks/useTasks.tsx:193-222 | the tasks become the replaced list, the events the propagated list, and the editor closes |
| Focus.Duration | src/pages/Focus.tsx:79-92 | 1500 s exactly for focus, 300 s exactly for a short break, 900 s exactly for a long break |
| Focus.AfterComplete | src/pages/Focus.tsx:64-76 | after focus, the count goes up by one and the break is long exactly when the new count is a multiple of 4; after a break, focus with the count unchanged |
| Focus.FourthBreakIsLong | src/pages/Focus.tsx:64-76 | n full rounds from focus add n to the count, and the next break is long exactly when the count after it is a multiple of 4 |
| Focus.SkipTarget | src/pages/Focus.tsx:219-226 | skip never stays in its mode and never goes to a long break; it goes to a short break exactly from focus |
| Focus.FormatTime | src/pages/Focus.tsx:108-113 | digits, then a colon three from the end, then two digits; the field before the colon reads back as the whole minutes and the last two digits as the seconds left over |
| Focus.FormatTimeRoundTrip | src/pages/Focus.tsx:108-113 | below 100 minutes the display is two digits, a colon and two digits, the seconds below 60, and it reads back as the time |
| Focus.FormatTimeInjective | src/pages/Focus.tsx:108-113 | below 100 minutes distinct times display differently |
| Focus.CycleShown | src/pages/Focus.tsx:268 | the cycle shown is at least 1, and the count lies in its block of four: from (c - 1) * 4 up to below c * 4 |
| Focus.SessionShown | src/pages/Focus.tsx:270 | the session shown is between 1 and 4 |
| Focus.CycleSessionDetermineCount | src/pages/Focus.tsx:268-270 | the cycle and session shown determine the completed count |
| Focus.FocusTimer.constructor | src/pages/Focus.tsx:25-30 | focus mode, 1500 s on both clocks, no cycles, inactive and unpaused |
| Focus.FocusTimer.SwitchMode | src/pages/Focus.tsx:79-92 | the mode's length on both clocks; flags and count unchanged; the timer invariant holds |
| Focus.FocusTimer.Complete | src/pages/Focus.tsx:54-77 | inactive and unpaused, mode and count as the completion rule says, time the new mode's length |
| Focus.FocusTimer.Tick | src/pages/Focus.tsx:38-45 | above one second the time drops by one and nothing else changes; otherwise the session completes; `0 <= time <= initialTime` is kept |
| Focus.FocusTimer.TickAsWritten | src/pages/Focus.tsx:38-45 | the callback as the source orders it: on completion the updater's 0 lands after `switchMode`'s length, so the new mode starts with 0 on the clock |
| Focus.FocusTimer.BreakLostAsWritten | src/pages/Focus.tsx:38-92 | as written, the last tick of a focus session, a start and one more tick end the break and return to focus with 0 on the clock |
| Focus.FocusTimer.BreakKept | src/pages/Focus.tsx:38-92 | with the mode's length kept, the same steps leave the break running, one second into its full length |
| Focus.FocusTimer.StartPause | src/pages/Focus.tsx:94-100 | inactive becomes active; active toggles paused; the clocks are unchanged |
| Focus.FocusTimer.Reset | src/pages/Focus.tsx:102-106 | inactive, unpaused, time back to the initial time, mode and count unchanged |
| Focus.FocusTimer.Skip | src/pages/Focus.tsx:219-226 | reset, then the skip target's full length; the count is unchanged |
| Focus.FocusTimer.SelectMode | src/pages/Focus.tsx:237-261 | reset, then the chosen mode's full length; the count is unchanged |
| ExpenseTracker.TotalIncome | src/pages/ExpenseTracker.tsx:149-151 | the sum, entry by entry, of the amount of each income entry and 0 for the others |
| ExpenseTracker.TotalExpense | src/pages/ExpenseTracker.tsx:153-155 | the sum, entry by entry, of the amount of each expense entry and 0 for the others |
| ExpenseTracker.Balance | src/pages/ExpenseTracker.tsx:157 | the sum of the entries' amounts, income counted plus and expenses minus |
| ExpenseTracker.TotalsOfPrepend | src/pages/ExpenseTracker.tsx:149-157 | a prepended entry adds its amount to the total of its own type only, and moves the balance by plus or minus its amount |
| ExpenseTracker.TotalsSplitSum | src/pages/ExpenseTracker.tsx:149-155 | income and expense totals together are the sum of all amounts |
| ExpenseTracker.InitialFigures | src/pages/ExpenseTracker.tsx:56-97 | the initial ledger has income 1200.00, expenses 893.49 and balance 306.51 |
| ExpenseTracker.Matches | src/pages/ExpenseTracker.tsx:160-178 | a set category or type admits only that value, every match lies in the date range, and with nothing set every entry matches |
| ExpenseTracker.FilteredExpenses | src/pages/ExpenseTracker.tsx:160-179 | order-preserving selection of the entries matching category, type and date range |
| ExpenseTracker.DefaultFilterShowsAll | src/pages/ExpenseTracker.tsx:165-176 | with both selects on "all" or empty and both dates empty, every entry shows |
| ExpenseTracker.DateRangeInclusive | src/pages/ExpenseTracker.tsx:171-176 | each bound admits the date equal to it, an empty bound imposes nothing, and a lower bound admits otherwise only later dates |
| ExpenseTracker.SpentOn | src/pages/ExpenseTracker.tsx:184 | only the expense entries of the category are counted, never income |
| ExpenseTracker.CategoryTotals | src/pages/ExpenseTracker.tsx:182-188 | order-preserving selection of the per-category totals that are positive |
| ExpenseTracker.CategoryTotalsSpec | src/pages/ExpenseTracker.tsx:182-188 | each entry is a listed category with its positive sum of outgoing amounts; every listed category with a positive sum has an entry; `CATEGORIES` order |
| ExpenseTracker.UnlistedCategoryIgnored | src/pages/ExpenseTracker.tsx:182-188 | an entry outside `CATEGORIES` changes no category total |
| ExpenseTracker.SortDesc | src/pages/ExpenseTracker.tsx:443 | the sort is a permutation of its input |
| ExpenseTracker.SortDescSorted | src/pages/ExpenseTracker.tsx:443 | the sort orders by non-increasing total |
| ExpenseTracker.SortDescStable | src/pages/ExpenseTracker.tsx:443 | the sort is stable: entries with equal totals keep their order |
| ExpenseTracker.TopCategories | src/pages/ExpenseTracker.tsx:443 | exactly the first five of the descending sort of the category totals, or all of them when there are fewer; no entry appears more often than among the category totals |
| ExpenseTracker.TopCategoriesTies | src/pages/ExpenseTracker.tsx:443 | among equal totals the list shows those first in `CATEGORIES` order: per total, the shown entries are a prefix of that total's category totals |
| ExpenseTracker.TopCategoriesBounded | src/pages/ExpenseTracker.tsx:443 | at most five entries, sorted, each a category total, and all of them when there are at most five |
| ExpenseTracker.TopCategoriesMaximal | src/pages/ExpenseTracker.tsx:443 | no category left off the list has a larger total than one on it |
| ExpenseTracker.ExpenseLedger.constructor | src/pages/ExpenseTracker.tsx:100-106 | the initial entries, filters on "all", empty dates |
| ExpenseTracker.ExpenseLedger.Shown | src/pages/ExpenseTracker.tsx:160-179 | the list on screen is the selection of the entries matching the current filters |
| ExpenseTracker.ExpenseLedger.AddExpense | src/pages/ExpenseTracker.tsx:124-134 | the new entry goes in front of the unchanged old list |
| ExpenseTracker.ExpenseLedger.DeleteExpense | src/pages/ExpenseTracker.tsx:144-146 | order-preserving selection of the entries whose id differs |
| ExpenseTracker.ExpenseLedger.SetFilters | src/pages/ExpenseTracker.tsx:101-106 | only the filter fields change |
| Dashboard.TodayEvents | src/pages/Dashboard.tsx:13-15 | order-preserving selection of the events starting today |
| Dashboard.UpcomingEvents | src/pages/Dashboard.tsx:18-24 | exactly the first five, in store order, of the events of the seven days after today, or all of them when there are fewer |
| Dashboard.TodayAndUpcomingDisjoint | src/pages/Dashboard.tsx:13-24 | no event is both today's and upcoming |
| Dashboard.FocusHours | src/pages/Dashboard.tsx:27-32 | with no focus event, the total is 0 |
| Dashboard.FocusHoursIsMs | src/pages/Dashboard.tsx:27-32 | the hour total is the millisecond total of the focus events over 3 600 000 |
| Dashboard.FocusHoursConcat | src/pages/Dashboard.tsx:27-32 | the total of a concatenation is the sum of the totals |
| Dashboard.FocusHoursOnlyFocus | src/pages/Dashboard.tsx:28 | dropping the events of other types leaves the total |
| Dashboard.FocusHoursNonNegative | src/pages/Dashboard.tsx:27-32 | with no event ending before it starts, the total is not negative |
| Dashboard.ProgressWidth | src/pages/Dashboard.tsx:85 | never above 100, exactly 100 from 15 hours on, proportional below, not negative for non-negative hours |
| TaskItem.DaysRemaining | src/components/tasks/TaskItem.tsx:78-90 | no value exactly without a due date, otherwise the due day minus today |
| TaskItem.Classify | src/components/tasks/TaskItem.tsx:92-131 | overdue exactly for negative, today exactly for 0, soon exactly for 1 and 2, later exactly above 2, with the day count shown |
| TaskItem.BadgeText | src/components/tasks/TaskItem.tsx:98-130 | "Due today" exactly for the due-today badge; the text is non-empty and starts with "O" exactly for an overdue badge |
| TaskItem.BadgeSingularIffOne | src/components/tasks/TaskItem.tsx:98-130 | the text ends in the singular "day" exactly when the count is one, in either direction |
| TaskItem.BadgeShowsCount | src/components/tasks/TaskItem.tsx:98-130 | the text starts with "Overdue by " or "Due in ", followed by the count, which reads back as the count |
| TaskItem.DueBadgeOf | src/components/tasks/TaskItem.tsx:183 | a badge exactly for an open task with a due date, classified by the days remaining |
| TaskItem.AddButtonIffProceeds | src/components/tasks/TaskItem.tsx:214 | the add-to-calendar button shows exactly when the handler goes through, and never beside the Calendar badge |
| TaskItem.PriorityLabel | src/components/tasks/TaskItem.tsx:50-76 | High, Medium and Low, one per priority |
| TaskItem.PriorityLabelInjective | src/components/tasks/TaskItem.tsx:50-76 | distinct priorities get distinct labels |
| TaskAddForm.Submission | src/components/tasks/TaskAddForm.tsx:14-18 | nothing is submitted exactly when the text is all white space; otherwise the untrimmed text |
| TaskAddForm.AddForm.Submit | src/components/tasks/TaskAddForm.tsx:14-18 | at most one submission, as above; blank text stays, a submit clears the text |
| Text.Trim | src/components/tasks/TaskAddForm.tsx:15 | `trim()`: the result sits inside the text with only white space before and after it, and it neither starts nor ends with white space |
| Text.TrimEmptyIffAllSpace | src/components/tasks/TaskAddForm.tsx:15 | `trim()` is empty exactly when every character is white space |
| DayView.HourRows | src/components/calendar/DayView.tsx:8 | 24 rows, labelled 0 to 23 |
| DayView.DayEvents | src/components/calendar/DayView.tsx:13-15 | order-preserving selection of the events on the selected day |
| DayView.EventsForHour | src/components/calendar/DayView.tsx:17-22 | order-preserving selection of the day's events starting in the hour |
| DayView.Rows | src/components/calendar/DayView.tsx:31-32 | 24 rows, row h holding the day's events that start in hour h |
| DayView.EachEventInOneRow | src/components/calendar/DayView.tsx:17-22 | an event of the day is in a row exactly when the row is its start hour |
| DayView.RowsCoverDay | src/components/calendar/DayView.tsx:31-47 | the rendered rows' lengths add up to the number of the day's events |
| MonthView.ShownEvents | src/components/calendar/MonthView.tsx:49 | the first min(3, n) events of the cell |
| MonthView.MoreCount | src/components/calendar/MonthView.tsx:67-71 | "+k more" shows exactly when there are more than 3, with k = n - 3 |
| MonthView.ShownPlusMore | src/components/calendar/MonthView.tsx:49-71 | shown plus hidden is the cell's count, and without the line all events show |
| MonthView.CellShowsItsDay | src/components/calendar/MonthView.tsx:28-49 | a cell shows only events of its day, in store order, and every one of them when the day has at most three |

## Left out

- Local storage, `JSON.parse` and `JSON.stringify` are not modelled. The load is the fail-soft rule over a `Saved` value (`UseTasks.Restored`), and the save effect is left out.
- Toasts and notifications, and the `notifications` flag of the timer, are left out: they are side effects only. `AddToCalendarOutcome` names which toast "add to calendar" shows, and `Mirror` returns the count its toast reports.
- JavaScript `Date` and date-fns are replaced by `Clock`'s integer arithmetic, in UTC with no daylight saving. Comparing "yyyy-MM-dd" strings on the dashboard is comparing day numbers.
- UseTasks.CalendarDraft, UseTasks.RetimedEvent and TaskItem.DaysRemaining: they take the due date as local midnight of its day. In the source, `new Date("yyyy-MM-dd")` parses as UTC midnight, while `setHours`, `format` and the day arithmetic use local time. West of UTC the source therefore places the event, and counts the days, one day early. With the local zone fixed at UTC the model cannot show this.
- `Math.random` and `Date.now()` ids, and `new Date()`, are parameters.
- Focus.FocusTimer.Tick: it takes the intended order, in which the new mode's length set by `switchMode` is what stays on the clock after a completion. `TickAsWritten` takes the order in which React applies the writes as the source makes them: the nested `setTime(length)` is queued before the updater's own `return 0`, so 0 stays. Which write wins depends on React's update queue and is not modelled beyond these two members.
- React's effects, intervals and update batching are left out. Each handler is one atomic step, apart from the stale `events` reads the source makes. The one-second interval is `FocusTimer.Tick`.
- Text.StrLess: it compares code points. JavaScript compares UTF-16 code units, so for characters outside the Basic Multilingual Plane the two orders differ: `"\u{1F600}" < "\uFF01"` holds in JavaScript, because the high surrogate 0xD83D is smaller, but not here. Surrogate pairs are not modelled.
- Floating point is replaced by exact arithmetic: `parseFloat`, `toFixed` and the hour division. Amounts are integer cents, and focus hours are `real`.
- UseTasks.TaskBoard.HandleAddToCalendar: it requires a non-empty event list on the proceeding path. With no events, `events[events.length - 1].id` throws, and that crash is not modelled.
- UseTasks.MirrorIdempotent: it requires non-empty event ids. `MirrorRepeatsEmptyId` shows what happens otherwise.
- UseTasks.TogglePriorityRetypesLinkedEvent and UseTasks.UpdatePropagates: they assume distinct event ids. With duplicate ids, every duplicate is rewritten, by `UpdateEvent`'s own contract.
- TaskItem.DaysRemaining: it takes the due day as parsed. A `dueDate` string that does not parse as a date (`Invalid Date`, `NaN` days) is not modelled.
- Focus.FormatTimeRoundTrip: it is stated below 100 minutes only. No mode is longer than 25 minutes.
- Presentation and wiring are not part of this model: icons, colours, routing, the calendar header, week view, event forms, the edit dialog, the task list, the filters and the other pages. The `useCalendar` guard outside a provider is framework plumbing and is left out too.

## Findings

| source | as written | input that shows it | evidently intended | confidence | as-written member | corrected member |
|---|---|---|---|---|---|---|
| src/hooks/useTasks.tsx:174-180 | after `addEvent`, the task is linked to `events[events.length - 1]` of the current render, which is the event that was last before the append | events `[e1]` with id "1"; add a task due on some day to the calendar under fresh id "k": the task gets eventId "1", and the event "k" is left unreferenced, so the next mirror pass creates a duplicate task for it | link the task to the id of the event just created | not executed | UseTasks.StaleLinkLeavesNewEventUnmirrored (with UseTasks.TaskBoard.HandleAddToCalendar) | UseTasks.FreshLinkKeepsSynced (with UseTasks.TaskBoard.HandleAddToCalendarFixed) |
| src/pages/Focus.tsx:38-42 | the `setTime` updater calls `handleTimerComplete()`, whose `switchMode` calls `setTime(length)`, and then returns 0; React applies the nested update first and the updater's 0 after it | a focus session at 1 second, active: one tick switches to the short break with 0 on the clock; Start and one tick then complete the break and return to focus, so the break lasts one second | the next mode starts with its full length on the clock | not executed; depends on React's update queue order | Focus.FocusTimer.BreakLostAsWritten (with Focus.FocusTimer.TickAsWritten) | Focus.FocusTimer.BreakKept (with Focus.FocusTimer.Tick) |
