# Study tracker core, modelled in Dafny

This project models the core of a parent/child study tracker. A parent
defines courses, assigns tasks and rewards, and reads reports. A child
works through tasks with a timer, earns success points and badges, and
spends the points on rewards.

The model covers:

- **The application store** (`Store`, `Scoring`). This is the persisted
  state: courses, tasks, per-course performance rows, rewards, badges and
  success points, together with every operation that changes it.
  - `completeTask` scores a finished session: the focus score, the success
    score with its time modifier, and the points with their 20% bonuses.
  - The badge effect runs after every change of the task list.
  - Also covered: the parent lock, backup export and import, and the
    cascade when a course is deleted.
- **The two session screens** (`TaskTimer`, `ReadingSession`, on top of
  `Session`). These are state machines: a one-second tick, pause and break
  controls, the finish dialogs and the answer check. They save a snapshot
  of the counters under `timerState_<id>` after every change, and they
  react when the task is deleted under them.
- **The child dashboard** (`ChildDashboard`):
  - the scan for an unfinished session when the dashboard opens;
  - resuming or discarding that session;
  - starting tasks and free-study sessions;
  - the pending-task filters;
  - the reading log and the library of books;
  - the reward store's affordability check;
  - the progress-bar steps.
- **The parent dashboard** (`ParentDashboard`):
  - the course, task and reward forms;
  - task filtering and sorting;
  - the duration text;
  - the topic-analysis reply check;
  - the course comparison, overall success, course statistics and weekly
    accuracy charts;
  - the dashboard's total-points figure.
- **The report components**:
  - course trends (`CourseTrends`, with the period keys in `Periods`);
  - task-type analysis (`TaskTypeAnalysis`);
  - best days and hours (`BestPeriod`);
  - time per course (`CourseTime`);
  - planned against actual time (`CompletionSpeed`);
  - the custom-report chart selection (`CustomReport`).
- **The report service's guard, error classifier and retry loop**
  (`AIService`).

How the source's forms are kept:

- **Imperative code is imperative here.** The store, the two session
  screens, the dashboard and the snapshot storage are classes whose
  methods update fields in place. Each forEach accumulation is a loop
  method proved against a fold (`Tally.TallyOf`), and the component is
  proved to produce what a pure specification function describes.
- **Pure computations are functions,** with their properties as lemmas.
- **JavaScript's `Math.round`** is `Numeric.Round` on reals and
  `Numeric.RoundDiv` on an integer quotient. Both round halves up.
- **Nested dictionaries** whose output order follows insertion order are
  modelled as a map plus the sequence of keys in order of first
  appearance (`Tally.FirstSeenKeys`). JavaScript lists integer-like keys
  first, in numeric order; of the keys the model groups by, only book
  titles can be integer-like (see `ChildDashboard.Library` under "Left out").
- **Dates and clocks are inputs:** the date of a task, the current day,
  the current millisecond, the weekday and the hour of a timestamp. So is
  any calendar reading of a date string. `Periods.CalendarDate` carries
  what the period keys read from a date.
- **`localeCompare` and the default array sort** compare strings by
  character code (`Text.StrLe`). This is exact for the period keys, which
  are ASCII.

Two behaviours of the report service are stated as lemmas rather than
findings:

- An unparsable reply is thrown as a `parse_error` object. The retry
  loop's classifier turns it into an `unknown` error, so the type
  `parse_error` never reaches a caller (`AIService.ParseFailureNotRetried`).
- The rate-limit rule matches `rate` anywhere in the message, so a message
  such as "Failed to generate content" is taken for a rate limit and
  retried (`AIService.GenerateReadsAsRateLimit`).

Where the written description of the system and the code disagree, the
model follows the code. Deleting a task removes it from the list but does
not remove its saved session snapshot; only a running session screen that
sees its task disappear removes the snapshot (`Store.TaskStore.DeleteTask`,
`TaskTimer.Timer.ObserveTasks`).

## Model

| member | source | states |
|---|---|---|
| Scoring.RecordedAnswers | App.tsx:379-386 | answers other than 0/0 are recorded only for question-solving tasks |
| Scoring.FocusScore | App.tsx:390-404 | focus lies in [0, 100] and is 100 for a session of zero length |
| Scoring.FocusPerfectIff | App.tsx:393-404 | focus is 100 exactly when there was no break, no pause and no overtime |
| Scoring.FocusAntitoneInBreak | App.tsx:395-397 | more break time never raises the focus score |
| Scoring.TimeModifier | App.tsx:409-415 | the modifier is 1 exactly on time, above 1 when faster (at most 1.1), below 1 when slower |
| Scoring.TimeModifierAntitone | App.tsx:409-415 | a slower session never gets a larger modifier |
| Scoring.SuccessScore | App.tsx:407-419 | success lies in [0, 100] and equals the focus score unless the task is a question task with a positive question count |
| Scoring.Points | App.tsx:421-428 | a completion earns at least its planned minutes |
| Scoring.PointsWithoutBonus | App.tsx:421-428 | with no score above 90 and no pages, the points are exactly the planned minutes |
| Scoring.PointsMonotoneInSuccess | App.tsx:421-428 | a better success score never earns fewer points |
| Scoring.Evaluate | App.tsx:376-428 | both scores lie in [0, 100] and the points are at least the planned minutes |
| Scoring.StoredScore | App.tsx:461-462 | a stored score is the rounded score in [0, 100], left undefined exactly when the score is 0 |
| Scoring.StudyOnTimeScenario | App.tsx:390-428 | a 30-minute study task done on time without interruption scores 100/100 and earns 43 points |
| Scoring.QuestionsOnTimeScenario | App.tsx:407-428 | 32 of 40 questions in exactly the planned 20 minutes gives success 80, focus 100 and 24 points |
| Store.Restore | App.tsx:89-98 | an accepted backup restores data that exports back to the same backup |
| Store.ExportImportRoundTrip | App.tsx:60-98 | an exported backup is always accepted by the import check and restores exactly the exported data |
| Store.Export | App.tsx:60-68 | the exported object; `ExportImportRoundTrip` proves the import accepts it and restores the data |
| Store.BackupAccepted | App.tsx:89-92 | the import check; `ExportImportRoundTrip` proves every export passes it |
| Store.AddCourseTo | App.tsx:257-267 | the new course goes first and its zeroed performance row goes last; nothing else changes |
| Store.RemoveCourseCascade | App.tsx:276-285 | after deleting a course, no course, task or performance row refers to it, and every one that refers to another course stays |
| Store.RemoveCourseTaskCount | App.tsx:543 | the number of tasks deleted with a course is the count the confirmation dialog announces |
| Store.ApplyPerformance | App.tsx:433-447 | reading tasks change nothing; otherwise the rows of the task's course gain the answers and the duration rounded to minutes, and other rows are unchanged |
| Store.CompleteTaskIn | App.tsx:368-472 | an unknown task changes nothing; otherwise the task is marked completed with today's date and the clock, and stores its duration, break and pause times, pages, empty count, recorded answers, stored success and focus scores and points; the balance grows by the evaluated points, the performance rows are updated, and other tasks and the task's own assignment fields are unchanged |
| Store.SetStatusIn | App.tsx:474-477 | exactly the tasks with the id get the new status |
| Store.StartIn | App.tsx:298-304 | exactly the tasks with the id get the start time |
| Store.ClaimedBalance | App.tsx:489-499 | a claim succeeds exactly when the reward exists and the points cover its cost, leaving a non-negative balance |
| Store.CheckAndAwardBadges | App.tsx:315-358 | the per-day forEach loop computes the specified awarded badges, at most two |
| Store.AwardedShape | App.tsx:324-349 | "Çalışkan Arı" is awarded exactly when it is missing and some day has three completed tasks; "Matematik Canavarı" exactly when it is missing and the first "Matematik" course has ten completed tasks |
| Store.AppendUniqueBadges | App.tsx:350-354 | appending the awarded badges keeps badge ids unique |
| Store.BadgesGrowUniquely | App.tsx:318-358 | badges are only ever appended, and never twice |
| Store.BadgesAfter | App.tsx:318-358 | the badge effect; `BadgesGrowUniquely`, `BadgeEffectSettles`, `BusyBeeAwardIff` and `AwardedShape` state what it awards |
| Store.BadgeEffectSettles | App.tsx:308-366 | a second run of the effect with no change of the task list awards nothing |
| Store.BusyBeeAwardIff | App.tsx:308-339 | the busy-day badge is held afterwards exactly when some task was newly completed and some day counts three completed tasks |
| Store.BusyDayIff | App.tsx:326-337 | the per-day tally has a count of three exactly when some day has three completed tasks |
| Store.TaskStore.constructor | App.tsx:113-125 | the first start has empty lists, the starter badge, zero points and the parent view locked |
| Store.TaskStore.Unlock | App.tsx:138-145 | the password "1234" unlocks; any other sets the error message and leaves the lock as it was |
| Store.TaskStore.SwitchUserType | App.tsx:147-153 | switching to the child view relocks the parent view; the data is unchanged |
| Store.TaskStore.ImportData | App.tsx:82-104 | an accepted backup replaces the data; a backup missing a list or the numeric points leaves the data and sets "eksik veya bozuk"; a file that does not parse (or parses to `null`) leaves the data and sets "okunamadı" |
| Store.TaskStore.AddCourse | App.tsx:257-267 | the data becomes AddCourseTo of the old data |
| Store.TaskStore.RequestDeleteCourse | App.tsx:269-274 | a known course is remembered for confirmation; an unknown id changes nothing |
| Store.TaskStore.CancelDeleteCourse | App.tsx:533 | the pending deletion is dropped and the data is unchanged |
| Store.TaskStore.ConfirmDeleteCourse | App.tsx:276-285 | the pending course is removed with its tasks and rows; without one nothing changes |
| Store.TaskStore.AddTask | App.tsx:288-292 | a pending task built from the draft goes first and is returned |
| Store.TaskStore.DeleteTask | App.tsx:294-296 | exactly the tasks with other ids remain, in order |
| Store.TaskStore.StartTask | App.tsx:298-304 | the tasks become StartIn of the old tasks |
| Store.TaskStore.UpdateTaskStatus | App.tsx:474-477 | the tasks become SetStatusIn of the old tasks |
| Store.TaskStore.CompleteTask | App.tsx:368-472 | the data becomes CompleteTaskIn of the old data |
| Store.TaskStore.AddReward | App.tsx:480-483 | the new reward goes first |
| Store.TaskStore.DeleteReward | App.tsx:485-487 | exactly the rewards with other ids remain |
| Store.TaskStore.ClaimReward | App.tsx:489-499 | the points drop by the cost exactly when the claim is affordable; otherwise nothing changes |
| Store.TaskStore.RunBadgeEffect | App.tsx:308-366 | the badges become BadgesAfter the previous and current task lists, and the previous list is updated |
| Tally.Accumulate | components/parent/CourseTimeDistribution.tsx:22-26 | the forEach "sum += value, count++" loop yields the fold TallyOf |
| Session.TimerKeyInjective | components/child/ActiveTaskTimer.tsx:95 | different tasks never share a snapshot key |
| Session.InitialState | components/child/ActiveTaskTimer.tsx:57-60 | a saved snapshot is resumed as it is; otherwise the counters start at zero, running |
| Session.Tick | components/child/ActiveTaskTimer.tsx:100-108 | one tick adds one second to the counter of the current phase and to no other |
| Session.TicksInPhase | components/child/ActiveTaskTimer.tsx:100-108 | n ticks in one phase add n seconds to that phase's counter only |
| Session.PauseControl | components/child/ActiveTaskTimer.tsx:305-309 | the pause button resumes from any paused or break phase and pauses a running session |
| Session.BreakControl | components/child/ActiveTaskTimer.tsx:311-315 | the break button ends a break and starts one otherwise |
| Session.ControlsReturnToRunning | components/child/ActiveTaskTimer.tsx:305-315 | pressing a control twice from running comes back to running |
| Session.SnapshotStorage.constructor | components/child/ActiveTaskTimer.tsx:93-96 | the storage starts with the given items |
| Session.SnapshotStorage.Save | components/child/ActiveTaskTimer.tsx:93-96 | the task's key now holds the snapshot; other keys are unchanged |
| Session.SnapshotStorage.Remove | components/child/ActiveTaskTimer.tsx:147 | the task's key is gone; other keys are unchanged |
| TaskTimer.ClockSeconds | components/child/ActiveTaskTimer.tsx:69-73 | the clock shows the remaining time, and the elapsed time once it runs over |
| TaskTimer.AtLeastZero | components/child/ActiveTaskTimer.tsx:284 | a negative display time is shown as 0 and any other is shown unchanged |
| TaskTimer.ClockTextReadsBack | components/child/ActiveTaskTimer.tsx:5-9 | the mm:ss text reads back as the clock's seconds |
| Text.FormatTime | components/child/ActiveTaskTimer.tsx:5-9 | the clock text is digits, a colon and two more digits; the field before the colon reads back as s / 60 and the two digits after it as s mod 60, which is below 60 |
| Text.FormatTimeRoundTrip | components/child/ActiveTaskTimer.tsx:5-9 | reading the minutes and seconds back from the text gives the seconds formatted |
| TaskTimer.AnswerFormIffAccuracyScore | components/child/ActiveTaskTimer.tsx:118-125 | a task that skips the answer form is scored by focus alone; a task that asks for answers is scored by the share of correct answers times the time modifier, clamped to [0, 100] |
| TaskTimer.Timer.constructor | components/child/ActiveTaskTimer.tsx:56-96 | the counters start from the snapshot or zero, the countdown shows only without a snapshot, and the snapshot is saved |
| TaskTimer.Timer.ObserveTasks | components/child/ActiveTaskTimer.tsx:82-91 | a vanished task stops the clock, removes its snapshot and shows the deletion notice |
| TaskTimer.Timer.FinishCountdown | components/child/ActiveTaskTimer.tsx:160 | the countdown ends and the clock starts |
| TaskTimer.Timer.OnTick | components/child/ActiveTaskTimer.tsx:98-116 | a running clock ticks and saves the snapshot; a stopped one changes nothing |
| TaskTimer.Timer.SetPhase | components/child/ActiveTaskTimer.tsx:93-96 | the phase changes and the snapshot is saved; a change of phase starts the interval again unless the countdown is shown, even after a deletion, as the effect keyed on the status does |
| TaskTimer.Timer.PressPause | components/child/ActiveTaskTimer.tsx:305-309 | the phase follows PauseControl, the snapshot is saved and the clock is running |
| TaskTimer.Timer.PressBreak | components/child/ActiveTaskTimer.tsx:311-315 | the phase follows BreakControl, the snapshot is saved and the clock is running |
| TaskTimer.Timer.RequestFinish | components/child/ActiveTaskTimer.tsx:118-125 | the session pauses; the answer form opens for question tasks with a question count, and the confirmation opens otherwise; the interval is rescheduled when the status changed |
| TaskTimer.Timer.SubmitAnswers | components/child/ActiveTaskTimer.tsx:127-138 | the answers are accepted exactly when they add up to the question count (blank counting as 0) |
| TaskTimer.Timer.LeaveAnswers | components/child/ActiveTaskTimer.tsx:251 | the answer form closes and nothing else changes |
| TaskTimer.Timer.LeaveConfirmation | components/child/ActiveTaskTimer.tsx:192 | the confirmation closes, the status returns to running, the snapshot is saved and the interval runs again, also when the task was deleted meanwhile |
| TaskTimer.BackAfterDeletion | components/child/ActiveTaskTimer.tsx:82-116 | for a task without the answer form, deleting the task while the confirmation is open and then pressing "Geri Dön" leaves the deletion notice up, the clock running and the deleted task's snapshot written back |
| TaskTimer.Timer.Report | components/child/ActiveTaskTimer.tsx:148-155 | the report carries the three counters, and answer counts exactly for question tasks |
| TaskTimer.Timer.ConfirmCompletion | components/child/ActiveTaskTimer.tsx:146-157 | the report is handed over, the snapshot removed and the screen closed |
| TaskTimer.Timer.ContinueLater | components/child/ActiveTaskTimer.tsx:140-144 | the screen closes and the saved snapshot stays |
| TaskTimer.Timer.AcknowledgeDeletion | components/child/ActiveTaskTimer.tsx:165-176 | the deletion notice closes the screen |
| TaskTimer.ReportedAnswersAreKept | components/child/ActiveTaskTimer.tsx:151-153 | the answers a question task reports are the answers the store records |
| ReadingSession.Reader.constructor | components/child/ActiveReadingSession.tsx:26-53 | the counters start from the snapshot or zero, the clock runs at once and the snapshot is saved |
| ReadingSession.Reader.ObserveTasks | components/child/ActiveReadingSession.tsx:38-48 | a vanished task stops the clock, removes its snapshot and shows the deletion notice |
| ReadingSession.Reader.OnTick | components/child/ActiveReadingSession.tsx:55-71 | a running clock ticks and saves the snapshot |
| ReadingSession.Reader.SetPhase | components/child/ActiveReadingSession.tsx:50-53 | the phase changes and the snapshot is saved; a change of phase starts the interval again, even after a deletion, as the effect keyed on the status does |
| ReadingSession.Reader.PressPause | components/child/ActiveReadingSession.tsx:159-163 | the phase follows PauseControl, the snapshot is saved and the clock is running |
| ReadingSession.Reader.PressBreak | components/child/ActiveReadingSession.tsx:165-169 | the phase follows BreakControl, the snapshot is saved and the clock is running |
| ReadingSession.Reader.RequestFinish | components/child/ActiveReadingSession.tsx:73-76 | the session pauses and the page-count confirmation opens; the interval is rescheduled when the status changed |
| ReadingSession.Reader.LeaveConfirmation | components/child/ActiveReadingSession.tsx:125 | the confirmation closes, the status returns to running, the snapshot is saved and the interval runs again, also when the task was deleted meanwhile |
| ReadingSession.BackAfterDeletion | components/child/ActiveReadingSession.tsx:38-71 | deleting the task while the pages dialog is open and then pressing "Geri Dön" leaves the deletion notice up, the clock running and the deleted task's snapshot written back |
| ReadingSession.Reader.ConfirmCompletion | components/child/ActiveReadingSession.tsx:78-91 | a positive page count completes the session with the counters and the pages; otherwise nothing changes |
| ReadingSession.Reader.AcknowledgeDeletion | components/child/ActiveReadingSession.tsx:95-106 | the deletion notice closes the screen |
| ReadingSession.ReadingPointsCountPages | App.tsx:425-427 | a reading session earns at least its planned minutes plus its pages |
| ChildDashboard.ProgressStep | components/child/ChildDashboard.tsx:2-14 | the bar width is the percentage rounded down to a multiple of 10, capped at 100 |
| ChildDashboard.ProgressWidthClass | components/child/ChildDashboard.tsx:2-14 | "w-full" from 100 on, "w-0" below 10, and otherwise "w-[n%]" with n the percentage rounded down to a multiple of 10 |
| ChildDashboard.ProgressStepMonotone | components/child/ChildDashboard.tsx:2-14 | a higher percentage never gives a narrower bar |
| ChildDashboard.ProgressStepDropsUnits | components/child/ChildDashboard.tsx:2-14 | between 10 and 99 the width drops the unit digit |
| ChildDashboard.AffordableIffClaimable | components/child/ChildDashboard.tsx:129-138 | the claim button is enabled exactly when the store's claim would succeed |
| ChildDashboard.CanAfford | components/child/ChildDashboard.tsx:129-138 | the enabled state of the claim button; `AffordableIffClaimable` ties it to the store's claim |
| ChildDashboard.ReadingLog | components/child/ChildDashboard.tsx:169-173 | the log is a permutation of the completed reading tasks, newest first |
| ChildDashboard.ShelveAgreesWithTally | components/child/ChildDashboard.tsx:236-241 | each title is shelved once, exactly the tallied titles, with the tallied page total |
| ChildDashboard.Shelve | components/child/ChildDashboard.tsx:233-241 | the `books` dictionary in first-seen title order; `ShelveAgreesWithTally` states its titles and totals |
| ChildDashboard.AddPagesAgrees | components/child/ChildDashboard.tsx:237-240 | adding one task's pages to a shelf keeps it in step with the tally |
| ChildDashboard.AddPagesToShelved | components/child/ChildDashboard.tsx:240 | adding pages to a title already shelved grows that book's total and keeps the shelf in step with the tally |
| ChildDashboard.AddPagesToNew | components/child/ChildDashboard.tsx:237-240 | a title not yet shelved gets a new book with the task's pages, keeping the shelf in step with the tally |
| ChildDashboard.ShelveAll | components/child/ChildDashboard.tsx:236-241 | the forEach over the reading tasks builds exactly the specified shelf |
| ChildDashboard.ShelveOne | components/child/ChildDashboard.tsx:237-240 | a task with a book title adds its pages to that title; one without changes nothing |
| ChildDashboard.Library | components/child/ChildDashboard.tsx:232-243 | the library is a permutation of the shelf, most pages first |
| ChildDashboard.ShelfTitles | components/child/ChildDashboard.tsx:236-241 | a title is shelved exactly when some task counts for it |
| ChildDashboard.TitlesDistinctAfterPermutation | components/child/ChildDashboard.tsx:243 | sorting keeps titles distinct |
| ChildDashboard.ShelvedAfterPermutation | components/child/ChildDashboard.tsx:243 | sorting keeps which titles are shelved |
| ChildDashboard.LibraryTitlesDistinct | components/child/ChildDashboard.tsx:232-243 | the library lists each book once |
| ChildDashboard.LibraryTitles | components/child/ChildDashboard.tsx:232-243 | a title is listed exactly when some completed reading task names it |
| ChildDashboard.LibraryTotals | components/child/ChildDashboard.tsx:232-243 | a book's total is the sum of the pages of its tasks |
| ChildDashboard.BuildLibrary | components/child/ChildDashboard.tsx:232-243 | the forEach loop builds exactly the specified library |
| ChildDashboard.AllPendingTasks | components/child/ChildDashboard.tsx:416-418 | exactly the pending tasks, earliest due date first |
| ChildDashboard.FilteredPendingTasks | components/child/ChildDashboard.tsx:420-439 | "today" keeps the pending tasks due today, "upcoming" those due later, "all" every pending task; each is sorted by due date |
| ChildDashboard.CompletedToday | components/child/ChildDashboard.tsx:441-442 | exactly the tasks completed today |
| ChildDashboard.ScanFindsFirst | components/child/ChildDashboard.tsx:378-397 | a recovered session is the first pending task with a readable snapshot |
| ChildDashboard.Scan | components/child/ChildDashboard.tsx:378-397 | the session scan; `ScanFindsFirst`, `ScanRemovesOnlyUnreadable` and `ScanNothingFound` state what it recovers and removes |
| ChildDashboard.ScanRemovesOnlyUnreadable | components/child/ChildDashboard.tsx:378-397 | the scan removes only unreadable snapshots and keeps all others |
| ChildDashboard.ScanNothingFound | components/child/ChildDashboard.tsx:378-397 | when nothing is recovered, no pending task keeps a snapshot and every removed one was unreadable |
| ChildDashboard.ScanSessions | components/child/ChildDashboard.tsx:378-397 | the early-return loop computes the specified scan |
| ChildDashboard.StartState | components/child/ChildDashboard.tsx:445-448 | a session receives a recovered snapshot exactly when it is the recovered task |
| ChildDashboard.StaleSnapshotReachesOtherTask | components/child/ChildDashboard.tsx:399-448 | as written, a task started after resuming another one starts with the other task's counters |
| ChildDashboard.OnlyRecoveredTaskResumes | components/child/ChildDashboard.tsx:445-448 | only the recovered task resumes its counters; every other task starts from zero |
| ChildDashboard.Dashboard.constructor | components/child/ChildDashboard.tsx:330-345 | no session, no recovery, the "today" filter and an empty free-study form on the first course |
| ChildDashboard.Dashboard.CheckUnfinishedSessions | components/child/ChildDashboard.tsx:378-397 | the storage becomes the scan's result, and a found session opens the resume dialog |
| ChildDashboard.Dashboard.StartTask | components/child/ChildDashboard.tsx:347-354 | the task gets its start time and opens the reading or the timer screen by its type; the session receives the recovered snapshot only for its own task, which agrees with the program whenever no snapshot was recovered or the task is the recovered one |
| ChildDashboard.Dashboard.StartFreeStudy | components/child/ChildDashboard.tsx:356-376 | a form with a title, a course and a positive duration creates a started self-assigned study task and resets the form; otherwise nothing changes |
| ChildDashboard.Dashboard.AddAndStart | components/child/ChildDashboard.tsx:360-369 | the new task is put at the head of the list and started at once, its session opened, and nothing else of the store changes |
| ChildDashboard.Dashboard.ContinueSession | components/child/ChildDashboard.tsx:399-405 | the recovered task starts with its snapshot and the dialog closes |
| ChildDashboard.Dashboard.DiscardSession | components/child/ChildDashboard.tsx:407-414 | the recovered task's snapshot is removed and the recovery dropped |
| ChildDashboard.Dashboard.CloseSession | components/child/ChildDashboard.tsx:445-448 | leaving a session screen returns to the dashboard |
| ChildDashboard.Dashboard.ShownPendingTasks | components/child/ChildDashboard.tsx:552-553 | the list shows only pending tasks of the store |
| ParentDashboard.CourseFormName | components/parent/ParentDashboard.tsx:59-65 | a course is added exactly when the name is not blank, under the trimmed name |
| ParentDashboard.SubmitTaskForm | components/parent/ParentDashboard.tsx:141-158 | a task is added exactly when the form is complete with a positive duration; the question count only for question tasks, the book only for reading tasks |
| ParentDashboard.SubmitRewardForm | components/parent/ParentDashboard.tsx:1003-1010 | a reward is added exactly when the name is not blank and the cost is positive |
| ParentDashboard.ToggleOrder | components/parent/ParentDashboard.tsx:225 | the sort button always flips the order |
| ParentDashboard.FilteredAndSortedTasks | components/parent/ParentDashboard.tsx:118-137 | exactly the tasks passing both filters, each as often as before, sorted by due date in the chosen direction |
| Lists.SortByStable | components/parent/ParentDashboard.tsx:130-135 | the sort every list view uses is stable: the tasks the comparator ties (for example the same due date) come out in their input order |
| ParentDashboard.FormatSeconds | components/parent/ParentDashboard.tsx:160-163 | the text is a number followed by a unit |
| ParentDashboard.FormatSecondsReadsBack | components/parent/ParentDashboard.tsx:160-163 | under a minute it reads back the seconds; otherwise the nearest whole minutes |
| ParentDashboard.TopicTasks | components/parent/ParentDashboard.tsx:322 | exactly the completed, scored tasks of the course |
| ParentDashboard.CheckTopics | components/parent/ParentDashboard.tsx:368-378 | a reply passes exactly when every item is a valid topic; a failure gives one of the two messages |
| ParentDashboard.CheckTopicsFirstFailure | components/parent/ParentDashboard.tsx:368-383 | the first bad item decides: a null item throws and reports the generic failure, any other reports a bad format |
| ParentDashboard.TopicAnalysis | components/parent/ParentDashboard.tsx:316-387 | fewer than 3 tasks, a failed call, a non-JSON reply and a bad item each give their message; success exactly for a valid array |
| ParentDashboard.NullItemReportsFailure | components/parent/ParentDashboard.tsx:368-383 | the message depends on whether a null item or a malformed item comes first |
| ParentDashboard.ComparisonChartData | components/parent/ParentDashboard.tsx:390-420 | one row per course, each the specified rounded averages |
| ParentDashboard.BarsOf | components/parent/ParentDashboard.tsx:405-419 | the bar group read off the accumulators is the specified one: zero without tasks, else the rounded averages |
| ParentDashboard.ComparisonRowBounds | components/parent/ParentDashboard.tsx:409-418 | with scores in [0, 100] the averages stay in [0, 100] |
| ParentDashboard.OverallSuccessData | components/parent/ParentDashboard.tsx:1060-1076 | a permutation of the per-course rows, highest rate first |
| ParentDashboard.SuccessRows | components/parent/ParentDashboard.tsx:1071-1074 | one row per course, in course order |
| ParentDashboard.SuccessRowsSnoc | components/parent/ParentDashboard.tsx:1071-1074 | one more course adds its row at the end |
| ParentDashboard.SuccessRowBounds | components/parent/ParentDashboard.tsx:1073 | with scores in [0, 100] the rate stays in [0, 100] |
| ParentDashboard.Percent | components/parent/ParentDashboard.tsx:845 | the share of correct answers rounded exactly (not through floating point), in [0, 100], or 0 without answers |
| ParentDashboard.CourseTasks | components/parent/ParentDashboard.tsx:835 | exactly the tasks of the course |
| ParentDashboard.CompletedAccuracy | components/parent/ParentDashboard.tsx:841-845 | 0 without answers; otherwise, with non-negative counts, the rate is the summed correct answers as a percentage of the summed answers, rounded to the nearest whole number, and lies in [0, 100] |
| ParentDashboard.CourseStatsOf | components/parent/ParentDashboard.tsx:839-853 | statistics exist exactly for a listed course; the rate is the accuracy of the course's completed tasks, the minutes are their seconds rounded to minutes, and the completed and pending counts are the sizes of those two subsets of the course's tasks |
| ParentDashboard.WeekLabelReadsBack | components/parent/ParentDashboard.tsx:866-879 | the week number parsed back from "Hafta n" is n |
| ParentDashboard.WeekRowsOf | components/parent/ParentDashboard.tsx:876-878 | one row per week, each with the week's accuracy |
| ParentDashboard.WeeklyRows | components/parent/ParentDashboard.tsx:876-879 | a permutation of the per-week rows, sorted by week number |
| ParentDashboard.WeekRowsDistinct | components/parent/ParentDashboard.tsx:864-875 | each week appears once before sorting |
| ParentDashboard.WeeklyRowsMembers | components/parent/ParentDashboard.tsx:864-879 | a row is shown exactly for a week with a dated completed task, with that week's accuracy |
| ParentDashboard.WeeklyRowsAccuracy | components/parent/ParentDashboard.tsx:876-879 | every row carries its own week's accuracy |
| ParentDashboard.WeeklyRowsStrict | components/parent/ParentDashboard.tsx:879 | the weeks strictly increase |
| ParentDashboard.WeeklyRowsWeeks | components/parent/ParentDashboard.tsx:864-879 | a week is shown exactly when some completed task falls in it |
| ParentDashboard.WeeklyPerformance | components/parent/ParentDashboard.tsx:855-880 | the forEach and sort compute exactly the specified rows |
| ParentDashboard.TallyWeeks | components/parent/ParentDashboard.tsx:863-874 | the weeks come out in order of first appearance, each with its correct and incorrect totals |
| ParentDashboard.TotalOfZeros | components/parent/ParentDashboard.tsx:1259 | summing a field no task has gives 0 |
| ParentDashboard.TotalPointsAlwaysZero | components/parent/ParentDashboard.tsx:1257-1266 | as written, the total-points figure is 0 for every task list |
| ParentDashboard.TotalPointsAsWritten | components/parent/ParentDashboard.tsx:1257-1259 | the figure as written; `TotalPointsAlwaysZero` proves it is 0 for every list |
| ParentDashboard.TotalPointsMissesAward | components/parent/ParentDashboard.tsx:1257-1266 | a completed task with awarded points shows them in the corrected total but not in the written one |
| ParentDashboard.TotalPointsPerTask | components/parent/ParentDashboard.tsx:1257-1259 | the corrected total is the sum of the completed tasks' awarded points |
| ParentDashboard.TotalPoints | components/parent/ParentDashboard.tsx:1257-1259 | the corrected figure; `TotalPointsPerTask` and `CompletionRaisesTotalPoints` state what it sums |
| ParentDashboard.CompletionRaisesTotalPoints | components/parent/ParentDashboard.tsx:1257-1259 | completing a pending task raises the corrected total by exactly the points the store adds |
| Periods.WeekOfYear | components/parent/ReportsCourseTrends.tsx:19-21 | the week number is the ceiling of (day of year + weekday of 1 January + 1) / 7, from 1 to 54 |
| Periods.DayKey | components/parent/TaskTypeAnalysis.tsx:13 | the daily key is the first ten characters of the ISO text |
| Periods.SameWeekSameKey | components/parent/TaskTypeAnalysis.tsx:14-17 | dates in the same week of the same year share a week key |
| Periods.PeriodKey | components/parent/TaskTypeAnalysis.tsx:11-19 | `getPeriodKey`; `SameWeekSameKey`, `MonthKeyReadsBack`, `WeekKeyReadsBack` and `KeysFollowCalendar` state what the keys mean |
| Periods.MonthKeyReadsBack | components/parent/ReportsCourseTrends.tsx:23 | the month key reads back as the year, "-" and the month |
| Periods.WeekKeyReadsBack | components/parent/ReportsCourseTrends.tsx:17-21 | the zero-padded week key reads back as the year, "-H" and the week number |
| Periods.KeysFollowCalendar | components/parent/ReportsCourseTrends.tsx:15-25 | with padded numbers, comparing week or month keys as text agrees with comparing the dates |
| Periods.UnpaddedWeeksMisorder | components/parent/ReportsCourseTrends.tsx:21 | as written, the key of week 10 sorts before that of week 9 of the same year |
| Periods.WeekKeyAsWritten | components/parent/ReportsCourseTrends.tsx:21 | the unpadded week key; `UnpaddedWeeksMisorder` shows week 10 sorting before week 9 |
| Periods.StrLeIsTotalPreorder | components/parent/ReportsCourseTrends.tsx:44 | the text order used to sort keys is a total preorder |
| CourseTrends.PointsOf | components/parent/ReportsCourseTrends.tsx:40-43 | one point per period, each with the rounded averages |
| CourseTrends.PeriodOrderIsTotal | components/parent/ReportsCourseTrends.tsx:44 | the comparison of points by period is a total preorder |
| CourseTrends.Series | components/parent/ReportsCourseTrends.tsx:38-45 | a course's series is a permutation of its period points, sorted by period text |
| CourseTrends.SeriesMembers | components/parent/ReportsCourseTrends.tsx:28-45 | a point is shown exactly for a period in which the course has a scored task, with that period's averages |
| CourseTrends.PointsDistinct | components/parent/ReportsCourseTrends.tsx:31-32 | each period appears once |
| CourseTrends.SeriesStrict | components/parent/ReportsCourseTrends.tsx:44 | the period texts strictly increase along the series |
| CourseTrends.SeriesEmpty | components/parent/ReportsCourseTrends.tsx:56 | a course without scored tasks gets an empty series |
| CourseTrends.SeriesBounds | components/parent/ReportsCourseTrends.tsx:42-43 | with scores in [0, 100] the averages stay in [0, 100] |
| CourseTrends.SeriesFollowsCalendar | components/parent/ReportsCourseTrends.tsx:15-44 | with padded keys, a point earlier in the series belongs to an earlier period of the calendar |
| CourseTrends.SeriesWeekTenBeforeNine | components/parent/ReportsCourseTrends.tsx:15-44 | as written, week 10 is charted before week 9 of the same year |
| CourseTrends.Aggregate | components/parent/ReportsCourseTrends.tsx:28-36 | the forEach loop yields per-course, per-period sums and the order of first appearance |
| CourseTrends.Step | components/parent/ReportsCourseTrends.tsx:29-35 | one task adds its scores to its course and period, or is skipped when unscored |
| CourseTrends.AggregatedEmpty | components/parent/ReportsCourseTrends.tsx:27 | the empty accumulation describes no tasks |
| CourseTrends.AggregateStep | components/parent/ReportsCourseTrends.tsx:28-36 | one step keeps the accumulation in step with the tasks seen so far |
| CourseTrends.StepSums | components/parent/ReportsCourseTrends.tsx:31-35 | after a step each entry holds the sums over the tasks seen so far |
| CourseTrends.CourseTrendSeries | components/parent/ReportsCourseTrends.tsx:12-58 | each listed course is given exactly its specified series |
| CourseTrends.AggregateCoursePerformance | components/parent/ReportsCourseTrends.tsx:12-47 | a course in the result gets exactly its specified series; a course left out would have had an empty one |
| CourseTrends.SeriesByCourse | components/parent/ReportsCourseTrends.tsx:38-46 | one entry per grouped course, each its specified series |
| CourseTrends.CourseSeries | components/parent/ReportsCourseTrends.tsx:40-44 | one course's mapped and sorted points are its specified series |
| CourseTrends.PointsFromSums | components/parent/ReportsCourseTrends.tsx:40-43 | reading the rounded averages off the sums gives the specified points, period by period |
| CourseTrends.AbsentCourseSeries | components/parent/ReportsCourseTrends.tsx:56 | a course never grouped has an empty series |
| CourseTrends.StepGroups | components/parent/ReportsCourseTrends.tsx:31-32 | a step keeps the grouped periods and the period order of every course in agreement |
| CourseTrends.StepOrders | components/parent/ReportsCourseTrends.tsx:31-32 | after a step each course's period order is the order of first appearance over the tasks seen so far |
| TaskTypeAnalysis.KeysPresent | components/parent/TaskTypeAnalysis.tsx:34-42 | a period is grouped exactly when a qualifying task falls in it |
| TaskTypeAnalysis.LastIsGreatest | components/parent/TaskTypeAnalysis.tsx:44 | the last key of the sorted keys is the greatest |
| TaskTypeAnalysis.LatestIsGreatest | components/parent/TaskTypeAnalysis.tsx:33-44 | there is no last period exactly when no task qualifies; otherwise it is the greatest key of a qualifying task |
| TaskTypeAnalysis.ReportRows | components/parent/TaskTypeAnalysis.tsx:44-56 | no rows exactly without a (non-empty) last period; otherwise three rows in label order with the rounded score average and the rounded average minutes, or 0/0 for a type absent in that period |
| TaskTypeAnalysis.Report | components/parent/TaskTypeAnalysis.tsx:32-56 | the report over the qualifying tasks; its rows are stated by `ReportRows` and their ranges by `ReportBounds` |
| TaskTypeAnalysis.ReportBounds | components/parent/TaskTypeAnalysis.tsx:51-52 | with scores in [0, 100] and non-negative durations, the averages stay in range |
| TaskTypeAnalysis.RowBounds | components/parent/TaskTypeAnalysis.tsx:51-52 | one row's averages stay in range when the scores are in [0, 100] and the durations not negative |
| TaskTypeAnalysis.RowOfIsMean | components/parent/TaskTypeAnalysis.tsx:48-53 | a row carries its type's label and 0/0 without tasks, else the score average and the average duration in minutes, each rounded to the nearest whole number |
| TaskTypeAnalysis.GreatestKeyIsMostRecent | components/parent/TaskTypeAnalysis.tsx:14-19 | with padded keys, the task whose key is the greatest is the one completed last |
| TaskTypeAnalysis.LatestIsMostRecent | components/parent/TaskTypeAnalysis.tsx:14-44 | with padded keys, the period shown is that of the most recent qualifying task |
| TaskTypeAnalysis.LatestPicksWeekNine | components/parent/TaskTypeAnalysis.tsx:14-44 | as written, tasks in weeks 9 and 10 of one year make week 9 the period shown |
| TaskTypeAnalysis.TypeCountBelowPeriod | components/parent/TaskTypeAnalysis.tsx:37-41 | a type's count in a period never exceeds the period's count |
| TaskTypeAnalysis.Step | components/parent/TaskTypeAnalysis.tsx:36-41 | one task adds its score and duration to its period and type |
| TaskTypeAnalysis.StepCounts | components/parent/TaskTypeAnalysis.tsx:37-38 | after a step, a period and a type are present exactly when counted |
| TaskTypeAnalysis.StepSums | components/parent/TaskTypeAnalysis.tsx:39-41 | after a step each entry holds the sums over the tasks seen so far |
| TaskTypeAnalysis.GroupStep | components/parent/TaskTypeAnalysis.tsx:35-42 | one step keeps the grouping in step with the tasks seen so far |
| TaskTypeAnalysis.GroupedEmpty | components/parent/TaskTypeAnalysis.tsx:34 | the empty grouping describes no tasks |
| TaskTypeAnalysis.Group | components/parent/TaskTypeAnalysis.tsx:34-42 | the forEach loop yields the specified grouping |
| TaskTypeAnalysis.GroupedRow | components/parent/TaskTypeAnalysis.tsx:48-53 | a grouped entry gives the specified row, and a missing entry gives 0/0 |
| TaskTypeAnalysis.RowsAt | components/parent/TaskTypeAnalysis.tsx:47-54 | the loop over the three types yields their rows in label order |
| TaskTypeAnalysis.LatestFromOrder | components/parent/TaskTypeAnalysis.tsx:44 | sorting the grouped keys and taking the last gives the specified last period |
| TaskTypeAnalysis.TaskTypeData | components/parent/TaskTypeAnalysis.tsx:32-57 | the component yields exactly the specified report over the qualifying tasks |
| BestPeriod.HourLabels | components/parent/BestPeriodAnalysis.tsx:12 | 24 labels "0:00" to "23:00" |
| BestPeriod.ChartRowsMeaning | components/parent/BestPeriodAnalysis.tsx:19-50 | row i has label i, counts the tasks of bucket i and holds their rounded average, or 0 |
| BestPeriod.ChartRows | components/parent/BestPeriodAnalysis.tsx:19-50 | one chart's rows; `ChartRowsMeaning`, `ChartCountsAddUp` and `ChartRowsBounds` state them |
| BestPeriod.ChartCountsAddUp | components/parent/BestPeriodAnalysis.tsx:19-33 | when every weekday or hour is in range, the task counts add up to the number of used tasks |
| BestPeriod.ChartRowsBounds | components/parent/BestPeriodAnalysis.tsx:30 | with scores in [0, 100] every average stays in [0, 100] |
| BestPeriod.BestPeriodView | components/parent/BestPeriodAnalysis.tsx:15-54 | the empty state shows exactly when no task is used; otherwise both charts are the specified rows |
| CourseTime.AllSlices | components/parent/CourseTimeDistribution.tsx:27-30 | one slice per course with its minutes and the colour of its position modulo 12 |
| CourseTime.SlicesFrom | components/parent/CourseTimeDistribution.tsx:27-30 | the slices built from the accumulated totals, with 0 for a course without tasks |
| CourseTime.SlicesMembers | components/parent/CourseTimeDistribution.tsx:27-31 | a slice is shown exactly for a listed course with more than 0 minutes |
| CourseTime.Slices | components/parent/CourseTimeDistribution.tsx:21-31 | the pie's slices; `SlicesMembers` and `AllSlices` state which are shown and with what |
| CourseTime.UnlistedCourseIgnored | components/parent/CourseTimeDistribution.tsx:27-31 | a task of an unlisted course changes no slice |
| CourseTime.MinutesNearTotal | components/parent/CourseTimeDistribution.tsx:22-26 | a course's minutes are within half a minute per task of its total time |
| CourseTime.PerTaskRounding | components/parent/CourseTimeDistribution.tsx:25 | rounding per task: two 30-second tasks count 2 minutes, not 1 |
| CourseTime.CourseTimeView | components/parent/CourseTimeDistribution.tsx:16-36 | the empty state shows exactly when no slice is left; otherwise the pie has the specified slices |
| CompletionSpeed.LastN | components/parent/CompletionSpeedAnalysis.tsx:18 | the last n elements, or all when there are fewer |
| CompletionSpeed.ShortTitle | components/parent/CompletionSpeedAnalysis.tsx:19 | titles over 18 characters become their first 15 and "..."; others are kept |
| CompletionSpeed.RowMeaning | components/parent/CompletionSpeedAnalysis.tsx:19-21 | a bar keeps the planned minutes and rounds the actual seconds to the nearest minute |
| CompletionSpeed.DataIsLastWindow | components/parent/CompletionSpeedAnalysis.tsx:13-22 | the chart has the bars of the last min(20, n) used tasks, in order |
| CompletionSpeed.EmptyExactlyWithoutData | components/parent/CompletionSpeedAnalysis.tsx:25-27 | the empty state shows exactly when no task is used |
| CompletionSpeed.LastNSnoc | components/parent/CompletionSpeedAnalysis.tsx:18 | one more element drops the oldest from a full window |
| CompletionSpeed.MapSeqSnoc | components/parent/CompletionSpeedAnalysis.tsx:18-22 | mapping distributes over appending one element |
| CompletionSpeed.MapSeqTail | components/parent/CompletionSpeedAnalysis.tsx:18-22 | mapping commutes with dropping the first element |
| CompletionSpeed.NewTaskShownLast | components/parent/CompletionSpeedAnalysis.tsx:13-22 | for a list kept oldest first (not the store's order), a new used task appended at the end becomes the last bar, and the oldest drops out once there are twenty |
| CompletionSpeed.NewTaskDroppedWhenFull | components/parent/CompletionSpeedAnalysis.tsx:16-23 | as written: a new used task, which the store puts first, gets a bar only while fewer than twenty tasks are charted; from twenty on the chart stays the oldest twenty |
| CompletionSpeed.FirstN | components/parent/CompletionSpeedAnalysis.tsx:17-18 | the first n elements, or all when there are fewer |
| CompletionSpeed.RecentData | components/parent/CompletionSpeedAnalysis.tsx:16-23 | the intended chart, the bars of the twenty most recent used tasks, most recent first; its meaning is stated by `RecentDataIsFirstWindow` and `NewTaskShownFirst` |
| CompletionSpeed.RecentDataIsFirstWindow | components/parent/CompletionSpeedAnalysis.tsx:16-23 | the intended chart has the bars of the first min(20, n) used tasks of the newest-first list, in order |
| CompletionSpeed.NewTaskShownFirst | components/parent/CompletionSpeedAnalysis.tsx:16-23 | as intended: a new used task becomes the first bar, and the oldest bar drops out once there are twenty |
| CompletionSpeed.Data | components/parent/CompletionSpeedAnalysis.tsx:16-23 | the chart as written, `completed.slice(-20)` mapped to bars; its meaning is stated by `DataIsLastWindow` and `NewTaskDroppedWhenFull` |
| CompletionSpeed.SpeedView | components/parent/CompletionSpeedAnalysis.tsx:25-44 | the empty state exactly without used tasks, otherwise the intended chart (`EmptyExactlyWithoutData`) |
| CustomReport.InitialSelection | components/parent/CustomReportModal.tsx:25 | all five charts are selected at first, once each |
| CustomReport.ToggleSelected | components/parent/CustomReportModal.tsx:27-31 | toggling a selected key removes it and keeps the others |
| CustomReport.Toggle | components/parent/CustomReportModal.tsx:27-31 | `handleToggle`; `ToggleSelected`, `ToggleUnselected`, `ToggleTwice` and `ToggleKeepsDistinct` state what it does to the selection |
| CustomReport.FilterComplementCount | components/parent/CustomReportModal.tsx:29 | removing a key shortens the selection by its copies |
| CustomReport.ToggleUnselected | components/parent/CustomReportModal.tsx:27-31 | toggling an unselected key appends it |
| CustomReport.ToggleTwice | components/parent/CustomReportModal.tsx:27-31 | toggling twice restores which keys are selected |
| CustomReport.ToggleTwiceMovesKey | components/parent/CustomReportModal.tsx:27-31 | toggling twice can move the key to the end |
| CustomReport.ToggleKeepsDistinct | components/parent/CustomReportModal.tsx:27-31 | toggling keeps the selection free of repeats |
| CustomReport.RenderedExactlySelected | components/parent/CustomReportModal.tsx:55-72 | a chart renders exactly when its key is selected, once, in the fixed order |
| AIService.CreateService | services/AIService.ts:14-19 | the constructor fails exactly on an empty key, with its message |
| AIService.RetryableKinds | services/AIService.ts:25-57 | exactly rate-limit and network errors are retryable, each rule applies only when the earlier ones do not, and parse_error is never answered |
| AIService.ParseError | services/AIService.ts:25-57 | the classification of a thrown error by its message; its rule order and retryability are stated by `RetryableKinds`, `RateRuleComesFirst` and `ParseFailureNotRetried` |
| AIService.RateRuleComesFirst | services/AIService.ts:28-42 | a message about a quota and a key is a rate-limit error |
| AIService.ParseFailureNotRetried | services/AIService.ts:109-117 | the thrown parse failure is classified unknown and not retried |
| AIService.ParseFailureNoRate | services/AIService.ts:28 | the parse-failure message mentions neither quota nor rate |
| AIService.ParseFailureNoKey | services/AIService.ts:36 | the parse-failure message mentions neither key nor authentication |
| AIService.ParseFailureNoNetwork | services/AIService.ts:44 | the parse-failure message mentions neither network nor fetch |
| AIService.GenerateReadsAsRateLimit | services/AIService.ts:28 | "Failed to generate content" is classified as a rate limit |
| AIService.RetryOperation | services/AIService.ts:59-75 | at most three attempts; all attempts but the last failed retryably; the waits are 1000, 2000 ms; success carries the value; failure is the last error's classification and is final or not retryable |

## Left out

- The Gemini calls are not modelled. This covers report generation in the store, the daily briefing, the topic-analysis request and the service's generate methods; only their replies enter the model, as inputs.
- Rendering, toasts, their four-second timers and the print and download handlers are not modelled; they only display state.
- Browser storage is not modelled beyond the snapshot map, and the store's persisted lists are fields of the store class. The JSON text of a backup and of a snapshot is reduced to its parsed value or to "unreadable".
- The date and clock readings are not computed in the model. `Date.now()`, `new Date()`, `toISOString`, `getDay`, `getHours`, the time zone, and the day-of-year and weekday of 1 January come in as parameters or as functions given to the model.
- Ids built from `Date.now()` are given as fresh-id parameters; their uniqueness is not modelled.
- Scoring: real arithmetic replaces floating point, and a NaN question count is not modelled.
- ParentDashboard.Percent: rounds the exact share `100·c/(c+i)`, where the program rounds the floating-point value `(c / (c + i)) * 100`. The two differ where the exact share ends in .5 but the floating product falls just below it: 23 correct and 17 incorrect give 57 in the program (23/40 × 100 is 57.49999999999999) and 58 in the model; 46 and 34 behave the same way. `WeekRowsOf`, `WeeklyRows` and `WeeklyPerformance` inherit this through `Percent`.
- ParentDashboard.CompletedAccuracy: the course view's success rate goes through `Percent`, so it carries the same exact-rounding difference from ParentDashboard.tsx:845 (23 correct, 17 incorrect: program 57, model 58), and so does `CourseStatsOf`.
- Scoring.FocusScore: requires a positive planned duration. The task form only accepts positive durations, and the source divides by this duration.
- Store.CompleteTaskIn: requires a positive planned duration of the task being completed, for the same reason.
- BestPeriod.ChartCountsAddUp: requires every weekday in 0..6 and every hour in 0..23, which is what the calendar functions return.
- Types: the planned duration is always a number. The icon components of courses, rewards and badges are left out.
- The 3-2-1 countdown before a task is not modelled; only its end is (`TaskTimer.Timer.FinishCountdown`).
- The interval is not modelled as a clock; each one-second tick is a method call.
- The parent dashboard's period filter and the weekly-completion counter are not modelled; they compare against the current date.
- The weekly charts in the reading log and the points chart are not modelled, for the same reason.
- The AI-generated report views are not modelled, since they only display a reply.
- AIService.RetryOperation: records each wait in `waits` instead of waiting. The recursion with an attempt counter is written as a loop.
- Text order: `localeCompare` is modelled by character-code order, which coincides for the ASCII period keys. No locale collation is modelled.
- CourseTrends: results are built for the listed courses only, which are the only ones the component displays.
- ChildDashboard.Library: books with equal page totals keep their first-seen order, whereas `Object.values(books)` (ChildDashboard.tsx:243) lists integer-like titles first, in numeric order. Reading "Dune" and then "1984" with 50 pages each gives [1984, Dune] in the program and [Dune, 1984] in the model. Titles that are not integer-like are ordered as in the program.
- ChildDashboard.BuildLibrary: inherits the tie order of `Library` for integer-like titles.
- Session.NumberInput: holds whole numbers only. `Number(text)` also accepts decimals, so decimal entries are not modelled: "2.5" + "2.5" answering a 5-question test, 2.5 pages (which pass the positive check and go into the points), and decimal durations and costs in the parent and free-study forms.
- CompletionSpeed.SpeedView: charts the twenty most recent used tasks (`RecentData`, the corrected half of the fifth Findings row), where the program charts `slice(-20)` of its newest-first list, the twenty oldest (`Data`).
- CompletionSpeed.ShortTitle: counts a title's length and cuts it in characters (code points), whereas JavaScript counts UTF-16 code units. The two differ only for titles with characters outside the Basic Multilingual Plane.
- ChildDashboard.Dashboard.StartTask: hands the recovered snapshot only to a session of the task it was saved for (`StartState`, the corrected half of the first Findings row). The program passes it to every later session, whatever the task (ChildDashboard.tsx:445-448); that behaviour is `StartStateAsWritten`, and the method's contract states that the two agree whenever no snapshot was recovered or the task is the recovered one.

## Findings

| source | as written | input that shows it | evidently intended | confidence | as-written member | corrected member |
|---|---|---|---|---|---|---|
| components/child/ChildDashboard.tsx:399-448 | the recovered snapshot stays in the dashboard state after resuming and is passed to every later session screen | resume task_1 with 600 s saved, finish it, then start task_2: task_2 starts at 600 s, paused | only the recovered task resumes from the snapshot; other tasks start from zero | not executed | ChildDashboard.StaleSnapshotReachesOtherTask | ChildDashboard.OnlyRecoveredTaskResumes |
| components/parent/ParentDashboard.tsx:1257-1259 | the total-points figure sums a `points` field that tasks do not have | one completed task awarded 43 points: the figure shows 0 | the sum of the completed tasks' awarded points | not executed | ParentDashboard.TotalPointsAlwaysZero | ParentDashboard.CompletionRaisesTotalPoints |
| components/parent/ReportsCourseTrends.tsx:17-44 | week keys are not zero-padded and are sorted as text | scored tasks of one course in weeks 9 and 10 of 2024: "2024-H10" is charted before "2024-H9" | the points in calendar order (a two-digit week number) | not executed | CourseTrends.SeriesWeekTenBeforeNine | CourseTrends.SeriesFollowsCalendar |
| components/parent/TaskTypeAnalysis.tsx:14-44 | the last period is the greatest unpadded key as text | qualifying tasks in weeks 9 and 10 of 2024: week 9 is analysed as the latest | the most recent period | not executed | TaskTypeAnalysis.LatestPicksWeekNine | TaskTypeAnalysis.LatestIsMostRecent |
| components/parent/CompletionSpeedAnalysis.tsx:16-23 | `completed.slice(-20)` takes the end of a list the store keeps newest first (App.tsx:290), so the chart shows the twenty oldest completed tasks, against the comment above it that promises the most recent | twenty completed tasks charted, then a twenty-first is completed: its bar never appears and the chart is unchanged | the twenty most recent tasks, most recent first | not executed | CompletionSpeed.NewTaskDroppedWhenFull | CompletionSpeed.NewTaskShownFirst |
