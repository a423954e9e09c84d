# daily-driver core, modelled in Dafny

daily-driver is a React task planner. Its data is a list of projects plus, for each project, a
set of date buckets (`projectId → dateKey → tasks`), kept by a reducer in `AppContext.jsx` and
loaded from and saved to Supabase by `dbService.js`. Around that state sit:

- a month calendar built by `dateUtils.js`;
- the dashboard and the project calendar;
- a task panel, a task settings drawer, an add-task modal and a swipeable task row;
- the login page's validators and the header's back-navigation;
- four custom rich-text nodes: a resizable image, an inline AI prompt, a callout and a toggle.

This project models that core and proves what each piece promises. It has one Dafny module per
source file, plus three shared modules:

- `Common`: `Option`, filtering and counting;
- `Text`: the JavaScript whitespace set, `trim`, `split`, `indexOf`, decimal printing and `parseInt`;
- `EditorDoc`: the part of the rich-text editor that the custom nodes touch.

The model takes the source's own form:

- **Reducer and pure helpers.** The reducer is a function `AppState.Reduce` over a `State`
  datatype. The id generator and the clock are parameters.
- **Loops.** Each loop of the source is a method with invariants, proved equal to a
  specification function that the rest of the model reasons about. These are `UPDATE_TASK`'s
  walk over the date keys, `getCalendarGrid`, `fetchTasks`' grouping, the dashboard's colour
  map and chip list, the calendar's status counters, and the password score.
- **Components.** A component whose handlers change its fields step by step is a class with
  those fields. Each handler is a method that states its whole new state.

Dates are calendar dates (`CalDate`: year, zero-based month, day) plus a time of day in
milliseconds. Weekdays come from a day count since 1970-01-01.

## Model

| member | source | states |
|---|---|---|
| AppState.MergeTask | src/context/AppContext.jsx:127 | `{...task, ...updates}`: every field the patch carries wins; id, project and creation time are kept |
| AppState.LookupPut | src/context/AppContext.jsx:106-109 | writing a date bucket makes that key read back the new tasks and leaves every other key as it was |
| AppState.PutDistinct | src/context/AppContext.jsx:106-109 | writing a bucket keeps the date keys distinct (an existing key is replaced in place, a new one appended) |
| AppState.OrOne | src/context/AppContext.jsx:95 | `estimatedDays \|\| 1`: never 0, and any non-zero given value is kept |
| AppState.FindIndex | src/context/AppContext.jsx:124 | `findIndex`: the first task with the id, or none has it |
| AppState.FirstBucketWith | src/context/AppContext.jsx:122-139 | the first date key in insertion order whose bucket holds the id, or none does |
| AppState.FirstUpdateChangesOneTask | src/context/AppContext.jsx:122-139 | UPDATE_TASK's walk changes exactly the first matching task of the first matching bucket, in place, and leaves every other task and every key alone; with no match nothing changes |
| AppState.UpdateTaskInProject | src/context/AppContext.jsx:119-139 | the loop that assigns into the copied buckets and breaks at the first hit computes `FirstUpdate` |
| AppState.AppendTaskEffect | src/context/AppContext.jsx:99-111 | appending to `tasks[projectId][key]` adds the task at the end of that bucket and changes no other bucket or project |
| AppState.RemoveTaskEffect | src/context/AppContext.jsx:151-162 | filtering a bucket leaves no task with the id in it, keeps the key, and changes no other bucket |
| AppState.AddProjectAppends | src/context/AppContext.jsx:48-58 | ADD_PROJECT appends exactly one `{id, name, createdAt}` with no type and changes nothing else |
| AppState.UpdateProjectPointwise | src/context/AppContext.jsx:60-66 | UPDATE_PROJECT merges the patch into every project with the id, keeps the others and the length, and changes nothing else |
| AppState.DeleteProjectRemoves | src/context/AppContext.jsx:68-77 | DELETE_PROJECT filters out the projects with the id, keeping the others in order, drops the project's task entry and keeps every other entry; `selectedProject` is cleared when it was the deleted id and kept otherwise; no other field changes |
| AppState.SelectionClearsTask | src/context/AppContext.jsx:79-83 | SELECT_PROJECT and SET_SELECTED_DATE set their field and always clear `selectedTask`; an unknown action leaves the state unchanged |
| AppState.AddTaskAppends | src/context/AppContext.jsx:85-112 | ADD_TASK appends one task with status `not_started`, description `''` and `estimatedDays \|\| 1` to the day's bucket, and changes no other bucket and no other field |
| AppState.UpdateTaskEffect | src/context/AppContext.jsx:114-149 | UPDATE_TASK replaces the first task with the id, in the first bucket holding it, by `{...task, ...updates}` at the same place and changes no other bucket of any project; with no match the buckets stay (an absent project gets an empty entry); `selectedTask` is refreshed only when it is the updated task; no other field changes |
| AppState.DeleteTaskEffect | src/context/AppContext.jsx:151-167 | DELETE_TASK removes the id from the given date bucket only; `selectedTask` is cleared when it had that id and kept otherwise; no other field changes |
| AppState.CopyTaskKeepsOriginal | src/context/AppContext.jsx:172-196 | COPY_TASK_TO_DATE appends a copy with a fresh id, the target date key and status `not_started`; every task present before is still present |
| AppState.AddKeepsKeysDistinct | src/context/AppContext.jsx:85-196 | adding, copying and deleting tasks keep each project's date keys distinct |
| AppState.ToggleTheme | src/context/AppContext.jsx:250-253 | `light` becomes `dark`; anything else becomes `light` |
| AppState.ToggleThemeTwice | src/context/AppContext.jsx:250-253 | toggling a light or dark theme twice gives it back |
| AppState.GetTasksForDate | src/context/AppContext.jsx:275-278 | a project without tasks yields no tasks |
| AppState.AddTaskThenGet | src/context/AppContext.jsx:275-278 | after ADD_TASK, `getTasksForDate` on any moment of the same day returns the earlier tasks followed by the new one |
| AppState.CurrentProject | src/context/AppContext.jsx:286-288 | the selected project if one in the list has the selected id, and none otherwise |
| DateUtils.DaysInMonth | src/utils/dateUtils.js:95-97 | 28 to 31 days; February has 29 exactly in leap years |
| DateUtils.YearLength | src/utils/dateUtils.js:95-97 | a year has 366 days exactly when it is a leap year, else 365 |
| DateUtils.PrevNextInverse | src/utils/dateUtils.js:66-79 | the previous day of the next day, and the next day of the previous day, are the same calendar date |
| DateUtils.ShiftCompose | src/utils/dateUtils.js:84-88 | shifting by `a` days then by `b` days is shifting by `a + b` days |
| DateUtils.NextDay | src/utils/dateUtils.js:66-70 | `getNextDay` moves one day forward and keeps the time of day |
| DateUtils.PreviousDay | src/utils/dateUtils.js:75-79 | `getPreviousDay` moves one day back and keeps the time of day |
| DateUtils.AddDays | src/utils/dateUtils.js:84-88 | `addDays(d, n)` moves `n` days and keeps the time of day |
| DateUtils.DayStepping | src/utils/dateUtils.js:66-88 | `addDays(d, 1)` is `getNextDay(d)`, `addDays(d, -1)` is `getPreviousDay(d)`, and the two single steps undo each other |
| DateUtils.AddDaysCompose | src/utils/dateUtils.js:84-88 | two `addDays` calls compose additively |
| DateUtils.IsSameDayEquivalence | src/utils/dateUtils.js:46-54 | `isSameDay` compares only year, month and day: it is reflexive, symmetric and transitive |
| DateUtils.DateKeyShape | src/utils/dateUtils.js:8-14 | for a four-digit year the key is `YYYY-MM-DD`: ten characters, dashes at 4 and 7, digits elsewhere |
| DateUtils.KeyParts | src/utils/dateUtils.js:8-14 | the key is the year, `-`, the 1-based month padded to two digits, `-`, and the day padded to two digits |
| DateUtils.DateKeySameDay | src/utils/dateUtils.js:8-14 | two moments have the same date key exactly when they are on the same day |
| DateUtils.NextMonthFirst | src/utils/dateUtils.js:129-132 | the first of the next month is the day after the last day of this month, with the year rolled over |
| DateUtils.GetCalendarGrid | src/utils/dateUtils.js:94-155 | the grid has 5 or 6 weeks of exactly 7 cells, and cell `7w + c` is the layout's cell at that flat index |
| DateUtils.PushCell | src/utils/dateUtils.js:116-125 | pushing a cell onto the current week, and closing a full week into the grid, keeps every placed cell at its flat index |
| DateUtils.PrevMonthDays | src/utils/dateUtils.js:104-113 | the leading cells are exactly `startDayOfWeek` previous-month days, in order |
| DateUtils.AddNextMonthDays | src/utils/dateUtils.js:128-152 | the trailing next-month days and the padding weeks complete the grid to 5 or 6 full weeks |
| DateUtils.CellRegions | src/utils/dateUtils.js:104-152 | leading cells are days `daysInPrevMonth - start + 1 ..`, current-month cells are exactly days `1..daysInMonth` from index `start`, and trailing cells count 1, 2, 3, … across the padding weeks |
| DateUtils.CellsConsecutive | src/utils/dateUtils.js:104-152 | each cell's date is the day after the previous cell's date |
| DateUtils.CellWeekday | src/utils/dateUtils.js:98-152 | cell `i` falls on weekday `i mod 7`, so every column is one weekday starting with Sunday |
| DateUtils.GridCoversMonth | src/utils/dateUtils.js:128-152 | the weeks cover the whole month, and a sixth week appears only when the month runs past the 35th cell |
| DateUtils.GetWeekdayNames | src/utils/dateUtils.js:160-165 | seven names starting with Sunday, short or long |
| DateUtils.ShortNamesArePrefixes | src/utils/dateUtils.js:160-165 | each short name is the first three letters of the long one |
| DbService.ToAppTask | src/utils/dbService.js:108-118 | the row mapping keeps id, project, date, title and creation time; a present non-empty status, content or priority and a non-zero estimate pass through; otherwise content is `''`, status `not_started`, priority `normal` and `estimatedDays` 1 |
| DbService.FetchTasks | src/utils/dbService.js:83-122 | the grouping loop computes `Group` of the returned rows, or of no rows when the query returns none |
| DbService.PushRow | src/utils/dbService.js:99-118 | one loop step appends the mapped row to its `[project_id][date]` bucket, creating the entry and bucket when missing |
| DbService.GroupBucket | src/utils/dbService.js:95-119 | each bucket is the mapping of exactly the rows of that project and date, in row order (`created_at` ascending) |
| DbService.GroupBucketSize | src/utils/dbService.js:95-119 | each bucket holds as many tasks as there are rows for its project and date |
| DbService.RowIsPlaced | src/utils/dbService.js:95-119 | every row's task lands in its own project's date bucket |
| DbService.GroupProjects | src/utils/dbService.js:95-119 | a project has an entry exactly when some row belongs to it |
| DbService.GroupBucketsFilled | src/utils/dbService.js:100-108 | every bucket created holds at least one task |
| DbService.CreateDefaultsMatchFetch | src/utils/dbService.js:127-163 | `createTask` inserts with the same defaults the fetch mapping applies, and returns the stored values |
| DbService.ToDbUpdates | src/utils/dbService.js:168-175 | the field-by-field copy computes `ColumnsOf`: only the five known fields, `estimatedDays` renamed to `estimated_days` |
| DbService.UpdateDropsOtherKeys | src/utils/dbService.js:170-175 | `date` and `description` in an update never reach the database |
| DbService.UpdateRoundTrip | src/utils/dbService.js:170-199 | mapping app fields to columns and back is the identity on title, status, priority and `estimatedDays`, keeps the untouched columns, and gives null content as `''` |
| LoginPage.GetPasswordStrength | src/components/LoginPage.jsx:6-25 | an empty password gives score 0 and no label; otherwise the accumulated score is `Score` and its rating |
| LoginPage.ScoreBounds | src/components/LoginPage.jsx:9-19 | the score is between 0 and 6, and at least 1 for a non-empty password |
| LoginPage.RatingBands | src/components/LoginPage.jsx:22-24 | the label is Weak for a score up to 2, Medium for 3–4 and Strong for 5–6 |
| LoginPage.ScoreMonotone | src/components/LoginPage.jsx:12-19 | appending a character never lowers the score |
| LoginPage.ValidEmailShape | src/components/LoginPage.jsx:28-30 | the email regex holds exactly when there is no whitespace, exactly one `@` not at the start, and a dot after it that is neither the domain's first nor the last character |
| LoginPage.AuthError | src/components/LoginPage.jsx:58-71 | a sign-up reports the invalid email first, then a weak password, then the "Passwords do not match." message; sign-in reports nothing |
| LoginPage.ValidSignUpPasses | src/components/LoginPage.jsx:48-71 | whatever `signUpValid` accepts, the handler's checks accept too |
| LoginPage.HandlerSkipsLength | src/components/LoginPage.jsx:48-71 | the handler alone lets a 7-character password through, which `signUpValid` rejects |
| LoginPage.LoginForm.HandleEmailAuth | src/components/LoginPage.jsx:53-71 | the error becomes the first failed check, and the request is sent and loading starts exactly when there is none |
| LoginPage.LoginForm.FinishEmailAuth | src/components/LoginPage.jsx:72-88 | loading always ends, and a failure's message becomes the error |
| LoginPage.LoginForm.HandleMagicLink | src/components/LoginPage.jsx:91-97 | the link is sent exactly for a valid email; otherwise the invalid-email error is set |
| LoginPage.LoginForm.FinishMagicLink | src/components/LoginPage.jsx:98-106 | loading ends; success marks the code as sent and failure sets the error |
| LoginPage.LoginForm.ToggleMode | src/components/LoginPage.jsx:226 | switching mode flips sign-up, clears the error and the confirmation |
| LoginPage.SubmitWhenEnabled | src/components/LoginPage.jsx:203 | pressing an enabled submit button always sends the request |
| Header.BackAction | src/components/Header.jsx:47-60 | a `/day/` path goes to its project, else a `/project/` path goes to `/`, else back one step; a `/day/` path without `/project/` throws |
| Header.UpTo | src/components/Header.jsx:52 | `split(sep)[0]` is a prefix of the text |
| Header.ProjectIdBetween | src/components/Header.jsx:52 | the id is the text after the first `/project/`, cut at a second `/project/` and then at the first `/day`, and contains no `/day` |
| Header.DayRouteGoesToProject | src/components/Header.jsx:50-53 | the `/day/` test wins: such a path navigates to `/project/` + its id |
| Header.Breadcrumbs | src/components/Header.jsx:16-43 | none for `/`, for paths outside `/project/` or with no current project; otherwise Projects first, and three crumbs exactly when the path contains `/day/` |
| Header.CrumbMatchesBack | src/components/Header.jsx:31 | on a day route the project crumb links where the back button goes |
| Dashboard.GroupsDisjoint | src/components/Dashboard.jsx:50-51 | work and personal projects are disjoint, any other type is in neither group, and the two groups together are no larger than the list |
| Dashboard.ProjectColorMap | src/components/Dashboard.jsx:57-63 | every project gets a colour, every key is a project id, and the last project with an id gives it `PROJECT_COLORS[i mod 8]` |
| Dashboard.DistinctIdsColor | src/components/Dashboard.jsx:57-63 | with distinct ids, the project at index `i` gets `PROJECT_COLORS[i mod 8]` |
| Dashboard.Tagged | src/components/Dashboard.jsx:73-79 | each of a project's day tasks is tagged with the project's name and colour, in order |
| Dashboard.GetAllTasksForDay | src/components/Dashboard.jsx:66-83 | the loop computes the visible projects' tagged day tasks concatenated in project order |
| Dashboard.PushChips | src/components/Dashboard.jsx:72-79 | one project's step appends its tagged tasks |
| Dashboard.DayChipsMembers | src/components/Dashboard.jsx:66-83 | a chip is listed exactly when its task is in some listed project's bucket for that day, tagged with that project |
| Dashboard.DayChipsCount | src/components/Dashboard.jsx:66-83 | the chip count is the sum of the projects' day task counts |
| Dashboard.ShownChips | src/components/Dashboard.jsx:388 | at most 3 chips are shown, the first ones |
| Dashboard.MoreLabel | src/components/Dashboard.jsx:399-401 | the `+N more` label appears exactly when there are more than 3 chips |
| Dashboard.ChipsAccountForAll | src/components/Dashboard.jsx:388-401 | shown chips plus the label's N are all the chips |
| Dashboard.VisibilityPatch | src/components/Dashboard.jsx:117-121 | the patch names the project and sets only `visible` |
| Dashboard.ToggleVisibilityFlips | src/components/Dashboard.jsx:117-121 | a hidden project becomes visible, and any other (including one with no flag) becomes hidden |
| Dashboard.MenuOptions | src/components/Dashboard.jsx:260-269 | Move to Work unless work, Move to Personal only for a set type other than personal, Delete always |
| Dashboard.HitSection | src/components/Dashboard.jsx:201-215 | work if y is within the work rectangle (bounds inclusive), else personal if within that one, else none |
| Dashboard.DayClick | src/components/Dashboard.jsx:104-110 | nothing happens without a project id; otherwise it selects the project and the date and routes to the day view |
| Dashboard.DayClickSelects | src/components/Dashboard.jsx:104-110 | after a day click the project and date are selected, no task is, and projects and tasks are unchanged |
| Dashboard.CreateAction | src/components/Dashboard.jsx:129-133 | a project is created exactly for a non-blank name, with the trimmed name |
| Dashboard.CreatedProjectIsPersonal | src/components/Dashboard.jsx:132 | the created project has no type, whatever type the dialog chose, and so is listed as personal and visible |
| Dashboard.DashboardUi.HandleDrop | src/components/Dashboard.jsx:187-195 | the type changes only when a project is dragged and its type differs from the target; the drag state is cleared either way |
| Dashboard.DashboardUi.HandleTouchMove | src/components/Dashboard.jsx:201-215 | the hovered section is the hit test's answer while a touch drag runs, and unchanged otherwise |
| Dashboard.DashboardUi.HandleTouchEnd | src/components/Dashboard.jsx:217-224 | a touch drop changes the type only for a dragged project over a section of another type, then clears the touch state |
| Dashboard.DashboardUi.HandleMenuClick | src/components/Dashboard.jsx:147-150 | the menu button opens that project's menu or closes it when it is open |
| Dashboard.DashboardUi.ChangeProjectType | src/components/Dashboard.jsx:123-127 | a menu choice sets the type and closes the menu |
| Dashboard.DashboardUi.HandleCreateProject | src/components/Dashboard.jsx:129-137 | it dispatches the create action and, only when one is made, resets and closes the dialog |
| CalendarView.Stats | src/components/CalendarView.jsx:41-53 | the nested counting loops compute the number of `ongoing` and `done` tasks over all dates |
| CalendarView.CountDay | src/components/CalendarView.jsx:45-50 | one date's pass adds that date's counts |
| CalendarView.StatsWithinTotal | src/components/CalendarView.jsx:41-53 | other statuses are not counted: ongoing plus done is at most the task total |
| CalendarView.GetTasksForDay | src/components/CalendarView.jsx:56-59 | the bucket for the date key, or no tasks |
| CalendarView.DayMatchesContext | src/components/CalendarView.jsx:56-59 | the view's lookup agrees with the context's `getTasksForDate` |
| CalendarView.Dots | src/components/CalendarView.jsx:159-164 | at most 5 dots, each the status of the corresponding task |
| CalendarView.ExtraDots | src/components/CalendarView.jsx:165-169 | the `+N` label appears exactly when there are more than 5 tasks |
| CalendarView.DotsAccountForAll | src/components/CalendarView.jsx:159-169 | dots plus N are all the tasks, and the label reads `+N` |
| CalendarView.AddButtonOnlyInMonth | src/components/CalendarView.jsx:145-155 | a cell offers the add button exactly when it is in the shown month |
| CalendarView.CalendarNav.HandlePrevMonth | src/components/CalendarView.jsx:61-63 | the date becomes the first of the previous month |
| CalendarView.CalendarNav.HandleNextMonth | src/components/CalendarView.jsx:65-67 | the date becomes the first of the next month |
| CalendarView.CalendarNav.HandleToday | src/components/CalendarView.jsx:69-71 | the date becomes now |
| CalendarView.MonthSteps | src/components/CalendarView.jsx:61-67 | previous and next month roll the year over at January and December, and stepping forward then back returns to the month's first day |
| CalendarView.EnsureSelected | src/components/CalendarView.jsx:27-31 | `selectProject(projectId)` is dispatched exactly when the route has a project id that is not the selected one |
| CalendarView.EnsureSelectedSettles | src/components/CalendarView.jsx:27-31 | after that dispatch the route's project is selected, the selected task is cleared, nothing else changes, and the effect dispatches nothing more |
| CalendarView.ProjectView | src/components/CalendarView.jsx:78-86 | the not-found state shows exactly when no project has the id |
| CalendarView.DayRouteGoesBack | src/components/CalendarView.jsx:73-76 | the back button on the day route a day click opens leads to that project's calendar |
| TaskDetailsPanel.PatchesTouchOneField | src/components/TaskDetailsPanel.jsx:58-82 | each of the panel's patches changes only its own field of the task |
| TaskDetailsPanel.EffortChange | src/components/TaskDetailsPanel.jsx:79-82 | the effort update targets the task and sets `max(1, days + delta)` |
| TaskDetailsPanel.EffortStaysPositive | src/components/TaskDetailsPanel.jsx:79-82 | the saved effort never drops below 1, and decrement and increment move it by one when allowed |
| TaskDetailsPanel.EffortUnit | src/components/TaskDetailsPanel.jsx:249 | the unit reads `day` exactly for 1 |
| TaskDetailsPanel.StatusChange | src/components/TaskDetailsPanel.jsx:75-77 | a status button updates that task's status only |
| TaskDetailsPanel.DeleteAction | src/components/TaskDetailsPanel.jsx:117-121 | delete dispatches exactly when confirmed, for that task's bucket |
| TaskDetailsPanel.CopyToTomorrow | src/components/TaskDetailsPanel.jsx:84-87 | the copy targets the day after today |
| TaskDetailsPanel.TaskPanel.Sync | src/components/TaskDetailsPanel.jsx:38-43 | the local title and description reload only when the selected task's id changes |
| TaskDetailsPanel.TaskPanel.HandleTitleBlur | src/components/TaskDetailsPanel.jsx:58-62 | the trimmed title is saved exactly when it is non-blank and the title differs from the stored one |
| TaskDetailsPanel.TaskPanel.HandleDescriptionBlurAsWritten | src/components/TaskDetailsPanel.jsx:69-73 | the description is saved exactly when it differs from the stored value, compared as written |
| TaskDetailsPanel.TaskPanel.HandleDescriptionBlur | src/components/TaskDetailsPanel.jsx:69-73 | the description is saved exactly when it differs from what the panel loaded |
| TaskDetailsPanel.TaskPanel.HandleCopyToDate | src/components/TaskDetailsPanel.jsx:89-96 | no date, no effect; otherwise the copy is dispatched to the local midnight whose date key is the picked string, the picker closes and the date clears |
| TaskDetailsPanel.TaskPanel.StartAiImprove | src/components/TaskDetailsPanel.jsx:98-103 | the menu closes, the error clears and loading starts |
| TaskDetailsPanel.TaskPanel.FinishAiImprove | src/components/TaskDetailsPanel.jsx:104-115 | loading ends either way; success replaces and saves the description, failure keeps it and sets the error |
| TaskDetailsPanel.FreshPanelSavesEmptyDescription | src/components/TaskDetailsPanel.jsx:69-73 | as written, blurring an untouched panel saves `''` for a task without a description |
| TaskDetailsPanel.FreshPanelSavesNothing | src/components/TaskDetailsPanel.jsx:69-73 | with the corrected comparison, blurring an untouched panel saves nothing |
| TaskDetailsPanel.TitleBlurResavesPadded | src/components/TaskDetailsPanel.jsx:58-62 | a saved title blur stores the trimmed title only; because the local title is not trimmed and reloads only on a new task id, the next blur saves again exactly when the local title has surrounding whitespace |
| AddTaskModal.DaysFromInput | src/components/AddTaskModal.jsx:50 | `max(1, parseInt(v) \|\| 1)`: always at least 1; a non-zero parse `n` gives `max(1, n)`, otherwise 1 |
| AddTaskModal.TypedDaysRoundTrip | src/components/AddTaskModal.jsx:50 | typing any positive number gives that number |
| AddTaskModal.AddTaskForm.EditDays | src/components/AddTaskModal.jsx:43-50 | the effort becomes the parsed value, which stays at least 1 and has no upper bound |
| AddTaskModal.AddTaskForm.HandleSubmit | src/components/AddTaskModal.jsx:10-16 | a task is added exactly when the trimmed title is non-empty (when create is enabled), with the trimmed title, and the modal then closes |
| AddTaskModal.SubmittedTaskKeepsEffort | src/components/AddTaskModal.jsx:10-16 | the stored task has the submitted title and effort and status `not_started` |
| TaskSettingsDrawer.OneActiveButton | src/components/TaskSettingsDrawer.jsx:88-108 | at most one status button and one priority button are active |
| TaskSettingsDrawer.MinusValue | src/components/TaskSettingsDrawer.jsx:129 | minus sends `max(1, days - 1)` |
| TaskSettingsDrawer.PlusValue | src/components/TaskSettingsDrawer.jsx:131 | plus sends exactly one day more than the current effort |
| TaskSettingsDrawer.ButtonsMatchPanel | src/components/TaskSettingsDrawer.jsx:129-131 | the drawer's buttons send what the panel's effort change sends |
| TaskSettingsDrawer.Drawer.HandleTouchStart | src/components/TaskSettingsDrawer.jsx:37-40 | records the start and starts dragging |
| TaskSettingsDrawer.Drawer.HandleTouchMove | src/components/TaskSettingsDrawer.jsx:42-49 | only a downward move while dragging updates the offset, which stays non-negative |
| TaskSettingsDrawer.Drawer.HandleTouchEnd | src/components/TaskSettingsDrawer.jsx:51-58 | closes exactly when pulled more than 100 pixels, then resets the offset and dragging |
| TaskSettingsDrawer.Drawer.Transform | src/components/TaskSettingsDrawer.jsx:60 | a transform applies exactly when the offset is positive |
| SwipeableTaskItem.Clamp | src/components/SwipeableTaskItem.jsx:23-31 | the offset is `deltaX` clamped to [-120, 120] |
| SwipeableTaskItem.IndicatorsExclusive | src/components/SwipeableTaskItem.jsx:74-76 | the complete and delete indicators never show together, and neither shows exactly at rest |
| SwipeableTaskItem.SwipedRowIgnoresClicks | src/components/SwipeableTaskItem.jsx:66-71 | a row swiped past the threshold ignores clicks |
| SwipeableTaskItem.SwipeRow.OnSwiping | src/components/SwipeableTaskItem.jsx:27-37 | swiping sets the clamped offset, and the haptic fires exactly when the offset crosses 80 outward |
| SwipeableTaskItem.SwipeRow.OnSwipedLeft | src/components/SwipeableTaskItem.jsx:38-45 | deletes exactly when the absolute offset is at least 80, then resets |
| SwipeableTaskItem.SwipeRow.OnSwipedRight | src/components/SwipeableTaskItem.jsx:46-53 | completes exactly when the signed offset is at least 80, then resets |
| SwipeableTaskItem.SwipeRow.OnTouchEnd | src/components/SwipeableTaskItem.jsx:54-59 | the offset resets only below the threshold; swiping always ends |
| SwipeableTaskItem.SwipeRow.HandleClick | src/components/SwipeableTaskItem.jsx:66-71 | a click goes through only when not swiping and the offset is under 10 |
| EditorDoc.Splice | src/components/extensions/AiPromptNode.jsx:33-41 | deleting a range and inserting content keeps what is before and after and puts the content in between |
| EditorDoc.SpliceRestores | src/components/extensions/AiPromptNode.jsx:33-41 | deleting an atom and inserting it back restores the document |
| EditorDoc.RenderedMatches | src/components/extensions/CalloutNode.jsx:62-72 | a node rendered with its marker attributes parses back under its rule, whatever attributes it carries |
| ResizableImage.NewWidth | src/components/extensions/ResizableImageComponent.jsx:25-40 | the width is clamped below at 100, then above at the parent: a raw width under 100 gives 100, one over the parent gives the parent's width (a parent narrower than 100 wins), and an in-range raw width is kept |
| ResizableImage.NewWidthMonotone | src/components/extensions/ResizableImageComponent.jsx:25-40 | the right handle widens with the pointer, the left handle narrows, and a left drag is a mirrored right drag |
| ResizableImage.PxWidthRoundTrip | src/components/extensions/ResizableImageComponent.jsx:42 | the number in a `px` width reads back as that number |
| ResizableImage.PxWidthIsNotImgStyle | src/components/extensions/ResizableImageComponent.jsx:49 | no pixel width equals the image's inline `100%` |
| ResizableImage.ImageView.constructor | src/components/extensions/ResizableImageComponent.jsx:5 | the width starts as the node's width attribute, or `100%` |
| ResizableImage.ImageView.AttrChanged | src/components/extensions/ResizableImageComponent.jsx:10-12 | the local width resyncs exactly when the attribute changes |
| ResizableImage.ImageView.HandleResizeStart | src/components/extensions/ResizableImageComponent.jsx:14-54 | a drag records the handle, the pointer and the image's width at the start |
| ResizableImage.ImageView.OnMouseMove | src/components/extensions/ResizableImageComponent.jsx:22-43 | a move sets only the local width, computed from the width at drag start |
| ResizableImage.ImageView.OnMouseUpAsWritten | src/components/extensions/ResizableImageComponent.jsx:45-50 | as written, releasing writes the image's inline `100%` to the attribute |
| ResizableImage.ImageView.OnMouseUp | src/components/extensions/ResizableImageComponent.jsx:45-50 | releasing writes the dragged width to the attribute and keeps showing it |
| ResizableImage.DragThenReleaseAsWritten | src/components/extensions/ResizableImageComponent.jsx:14-67 | as written, a drag then release stores `100%`, never the dragged width |
| ResizableImage.DragThenRelease | src/components/extensions/ResizableImageComponent.jsx:14-50 | corrected, a drag then release stores the dragged width |
| AiPromptNode.RenderParses | src/components/extensions/AiPromptNode.jsx:109-115 | the node renders to a `div[data-ai-prompt]` and parses back |
| AiPromptNode.KeyEffect | src/components/extensions/AiPromptNode.jsx:49-57 | Enter without Shift submits and Escape cancels, and nothing else does either |
| AiPromptNode.PromptView.EditPrompt | src/components/extensions/AiPromptNode.jsx:75 | typing changes the prompt, only while no request runs |
| AiPromptNode.PromptView.HandleSubmitAsWritten | src/components/extensions/AiPromptNode.jsx:21-42 | a blank prompt or a running request is a no-op; otherwise loading starts and the error clears, and the handler is called exactly when it exists |
| AiPromptNode.PromptView.HandleSubmit | src/components/extensions/AiPromptNode.jsx:21-47 | corrected: a missing handler ends the request with an error |
| AiPromptNode.PromptView.FinishSuccess | src/components/extensions/AiPromptNode.jsx:33-41 | the node's one position is replaced by the response, and the rest of the document is kept |
| AiPromptNode.PromptView.FinishFailure | src/components/extensions/AiPromptNode.jsx:43-46 | the node stays, the error holds the message and loading ends |
| AiPromptNode.PromptView.HandleCancel | src/components/extensions/AiPromptNode.jsx:59-61 | cancel deletes exactly the node |
| AiPromptNode.PromptView.HandleKeyDown | src/components/extensions/AiPromptNode.jsx:49-57 | the handler is called exactly for Enter without Shift on an unblocked prompt with a defined handler, leaving the view loading with no error as the submit does; Escape deletes the node; other keys and a blocked submit change nothing |
| AiPromptNode.MissingHandlerAsWritten | src/components/extensions/AiPromptNode.jsx:29-42 | as written, a node inserted without a handler stays loading with no error |
| AiPromptNode.MissingHandler | src/components/extensions/AiPromptNode.jsx:29-46 | corrected, the request ends with an error |
| CalloutNode.ShownEmoji | src/components/extensions/CalloutNode.jsx:12 | the emoji falls back to 💡 when absent |
| CalloutNode.ShownType | src/components/extensions/CalloutNode.jsx:13 | the type falls back to `info` when absent |
| CalloutNode.EmojisWellFormed | src/components/extensions/CalloutNode.jsx:7 | the picker offers ten distinct emojis, 💡 first |
| CalloutNode.NewCallout | src/components/extensions/CalloutNode.jsx:78-89 | `setCallout` builds one callout with the given or default attributes and the placeholder text |
| CalloutNode.NewCalloutShowsDefaults | src/components/extensions/CalloutNode.jsx:51-60 | a callout inserted without attributes shows 💡 and `info` |
| CalloutNode.SetCallout | src/components/extensions/CalloutNode.jsx:78-89 | exactly one callout goes in at the selection |
| CalloutNode.RenderParses | src/components/extensions/CalloutNode.jsx:62-72 | the node renders to `div[data-type="callout"]` and parses back, even with a `data-type` attribute of its own |
| CalloutNode.CalloutView.TogglePicker | src/components/extensions/CalloutNode.jsx:25 | the emoji button shows or hides the picker |
| CalloutNode.CalloutView.HandleEmojiClick | src/components/extensions/CalloutNode.jsx:15-18 | picking sets that node's emoji, which is then shown, and closes the picker |
| ToggleNode.NewToggle | src/components/extensions/ToggleNode.jsx:100-110 | a new toggle is open and holds at least one block |
| ToggleNode.FlipTwice | src/components/extensions/ToggleNode.jsx:126-129 | two clicks restore the toggle, and a click keeps it well formed |
| ToggleNode.HandleToggle | src/components/extensions/ToggleNode.jsx:126-129 | the button flips `open` of that toggle and changes no other block |
| ToggleNode.WrapperClasses | src/components/extensions/ToggleNode.jsx:132 | the wrapper has `is-open` exactly when open, and never `open` |
| ToggleNode.VisibilityPolicy | src/components/extensions/ToggleNode.jsx:190-197 | the first child always shows; a later one is hidden exactly when the toggle is closed |
| ToggleNode.DocumentedRuleHidesOpenToggle | src/components/extensions/ToggleNode.jsx:132 | the documented `.open` rule hides the later children of an open toggle too |
| ToggleNode.RenderParses | src/components/extensions/ToggleNode.jsx:112-122 | the node renders to `details` and parses back |
| Text.Trim | src/components/Dashboard.jsx:131 | `trim()` is empty exactly for all-whitespace text and leaves no whitespace at either end |
| Text.ParseIntOfIntToString | src/components/AddTaskModal.jsx:50 | `parseInt` of a printed integer gives it back |
| Text.JoinSplit | src/components/Header.jsx:52 | joining the parts of a `split` with the separator gives the text back |

## Left out

- I/O is not modelled. That covers the Supabase queries and their error logging, localStorage, authentication calls, `alert` and `confirm` (a confirmation is a boolean parameter), navigation side effects (a route is a returned value), and the OpenAI client. Each call's outcome is a parameter of a two-step start and finish pair.
- `uuidv4` and `new Date()` are not modelled; ids and timestamps are parameters.
- Time zones, daylight saving and locale formatting are left out. A `Date` is a calendar date plus a time of day.
- String lengths are sequence lengths, not UTF-16 code units.
- Floating-point display values are left out: the strength bar, and the swipe progress kept only as a bounded `real`. Pointer coordinates are integers.
- Haptics are booleans returned by the handlers that fire them.
- Stale React closures, effect scheduling and the ordering of asynchronous callbacks are not modelled. Each async flow is a start step and a finish step.
- The rich-text editor is the library's, and it is not part of this model. A document is a flat list of top-level blocks, a position indexes one block, and an atom occupies one position. HTML attribute serialisation of `open` and `onSubmit` is left out.
- The toggle's `setToggle`/`toggleToggle` commands and its `> ` input shortcut wrap blocks through the library's commands, so they are left out. `ToggleComponent` in the same file is never used by the node.
- The stylesheet is not part of this model. The toggle's visibility rule is taken from the file's own comment.
- `ResizableImage.js`, the node that mounts the view, is not part of this model beyond the `width` attribute's default.
- Dashboard's `handlePrevMonth`, `handleNextMonth` and `handleToday` (src/components/Dashboard.jsx:92-102) have the same code as CalendarView's. They are modelled once, by `CalendarView.CalendarNav`.
- Dashboard's `handleDeleteProject` and `handleProjectClick` only forward to DELETE_PROJECT and SELECT_PROJECT, which the reducer lemmas cover.
- DbService.GroupBucketSize: states the count per bucket (with `GroupBucket`, `RowIsPlaced` and `GroupProjects`), not the sum over all buckets equalling the row count, because a sum over a map of sequences adds a fold with nothing further to show.
- A `/day/` path without `/project/` makes `handleBack` raise a TypeError; the model returns an explicit `Throws` outcome for it instead of excluding it by a precondition.
- The calendar grid computes `daysInMonth`, the weekday and the previous month's length from a Gregorian day count instead of `Date` objects, and its cells carry calendar dates at midnight.
- TaskDetailsPanel.TaskPanel.HandleCopyToDate: the picked string is taken to be a well-formed `YYYY-MM-DD` key, which is what a date input yields, and `target` is its local midnight. `new Date` on other text, an invalid date, is not modelled.
- JavaScript's `Date` reads a year from 0 to 99 as 1900 plus that year. Years here are taken as given.
- `parseInt` and JavaScript numbers lose precision beyond 2^53. Integers here are unbounded.
- `updateTask` sends a key whose value is `null` as a null column. A patch here cannot hold `null`, so that case is not modelled.
- Pure presentation (icons, class names other than the toggle wrapper's, labels, layout) is left out.

## Findings

| source | as written | input that shows it | evidently intended | confidence | as-written member | corrected member |
|---|---|---|---|---|---|---|
| src/components/TaskDetailsPanel.jsx:69-73 | blur compares the local description with `task.description` itself, and the local copy of a missing description is `''` | a task without a description, blurred untouched | save only when the text changed from what was loaded | not executed; high | TaskDetailsPanel.FreshPanelSavesEmptyDescription | TaskDetailsPanel.FreshPanelSavesNothing |
| src/components/extensions/AiPromptNode.jsx:29-42 | when `onSubmit` names no function, nothing is called and `loading` stays true with no error, so the input and button stay disabled | any non-blank prompt on a node inserted with the default `onSubmit` of null | end the request with an error, as a failed call does | not executed; high | AiPromptNode.MissingHandlerAsWritten | AiPromptNode.MissingHandler |
| src/components/extensions/ResizableImageComponent.jsx:49 | mouse-up writes the `<img>` element's inline width, which render fixes at `100%` (line 67), so the dragged width is never stored | drag the right handle of a 300-pixel image by 50 pixels and release: the attribute becomes `100%`, not `350px` | store the dragged width | not executed; high | ResizableImage.DragThenReleaseAsWritten | ResizableImage.DragThenRelease |
| src/components/extensions/ToggleNode.jsx:132 | the wrapper gets `is-open`, while the file's stylesheet note keys the hiding rule on `.open` | an open toggle with two children: the note's rule hides the second | key the rule on the class the view sets | not executed; low, the stylesheet itself is not part of this model | ToggleNode.DocumentedRuleHidesOpenToggle | ToggleNode.VisibilityPolicy |
