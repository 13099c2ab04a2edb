# OPMAZE production scheduling: a Dafny model of its core

OPMAZE is a production-scheduling dashboard. A browser front end lets a planner
chat with an assistant about scheduling constraints. An optimisation service
asks a language model for a schedule and hands it to a Python backend. The
backend builds and solves a CP-SAT model over employees, products, days and
hours. The analytics views count assignments by status, and a calendar shows
and creates assignments.

This project models that core in Dafny and proves what each part promises.

- `scheduler.dfy` (module `Scheduler`): the backend's `/optimize-schedule`
  route, written as the same loops.
  - One boolean per (employee, product, day 0..6, hour 8..17) slot, with Python
    dict semantics: a repeated key keeps its first position.
  - One "at most one product" rule per (employee, day, hour).
  - A solver oracle.
  - One two-hour entry per variable set to 1.
  - The request guards of `/execute-optimization`.
- `chat.dfy` (module `Chat`): the chat panel.
  - The keyword if-chain that answers the user, shown equal to a first-match
    rule table.
  - The constraint row saved for a proposal.
  - The panel's state (`messages`, `inputMessage`, `isLoading`) as a class.
- `llm.dfy` (module `LlmResponse`): post-processing of the model's answer.
  - The constraint flags.
  - The first fenced Python block, with a round trip.
  - The dispatch to exactly one backend call.
- `metrics.dfy` (module `Metrics`): what both analytics views share.
  - Status counts, the completion rate and the status-chart slices.
  - The loading/error gate.
- `dashboard.dfy` (module `Dashboard`): the analytics dashboard as a class.
  - Its load.
  - The chart data, active workers and average utilisation.
- `simple_analytics.dfy` (module `SimpleAnalytics`): the simple analytics view
  as a class.
  - Its load and figures.
  - The stored-stats card.
- `calendar.dfy` (module `Calendar`): the calendar.
  - The assignment-to-event transform with the name fallback.
  - Status colours, which agree with the chart's palette.
  - The new-assignment form and its creation.
  - The export rows.
- `values.dfy`, `text.dfy`, `records.dfy`: shared pieces.
  - `Option` and JSON values with JavaScript truthiness.
  - Substring search, ASCII lower-casing and JavaScript `trim`.
  - The database rows and the outcome of a query.

Everything external is a parameter:
- the CP-SAT solver (any answer, but a reported OPTIMAL/FEASIBLE solution
  satisfies the model);
- `datetime.now()`, as seconds of naive local time;
- the language model;
- the backend and database calls;
- the stored optimisation stats;
- `JSON.parse`;
- date formatting.

## Model

| member | source | states |
|---|---|---|
| Scheduler.BuildVariables | python-backend/app.py:131-139 | the variable loop produces exactly the grid of slot keys in loop order, a repeated (employee, product, day, hour) key keeping its first position |
| Scheduler.AddWeek | python-backend/app.py:136-139 | the day and hour loops for one (employee, product) add that pair's seventy slot keys to the dict |
| Scheduler.AddDay | python-backend/app.py:137-139 | the hour loop adds the keys for hours 8..17 of one day, a key already present staying where it was |
| Scheduler.GridExactlyOnePerSlot | python-backend/app.py:134-139 | the dict holds no key twice, and a key is in it exactly when its employee and product come from the request, its day is 0..6 and its hour 8..17 |
| Scheduler.PostConstraints | python-backend/app.py:143-149 | the constraint loop posts exactly the slot rules, in loop order |
| Scheduler.PostDay | python-backend/app.py:145-149 | one day's hour loop appends the ten slot rules of that day |
| Scheduler.PostedIsSlotRule | python-backend/app.py:143-149 | every posted constraint is the "sum over products ≤ 1" rule of a request employee, a day 0..6 and an hour 8..17 |
| Scheduler.SlotRulePosted | python-backend/app.py:143-149 | every such slot rule is posted |
| Scheduler.AllZeroSatisfies | python-backend/app.py:146-149 | all variables at 0 satisfy the model, so it is never infeasible |
| Scheduler.OneProductPerSlot | python-backend/app.py:146-149 | in any satisfying assignment an employee has at most one product code per (day, hour) |
| Scheduler.Selected | python-backend/app.py:157-158 | the materialising loop visits exactly the variables set to 1, each once |
| Scheduler.Materialise | python-backend/app.py:155-169 | the loop appends one entry per selected variable in dict order |
| Scheduler.EntryForTime | python-backend/app.py:159-161 | an entry's start is the day's midnight plus `day` days plus `hour` hours, on the hour |
| Scheduler.MaterialisedProperties | python-backend/app.py:155-169 | from a satisfying assignment every entry has request ids, starts on the hour between 8:00 and 17:00 within the next seven days, lasts two hours and is `scheduled`; no employee has two entries with the same start |
| Scheduler.OptimizeSchedule | python-backend/app.py:115-176 | without OR-Tools the route returns 500 "OR-Tools not available"; otherwise it returns the solver status and the materialised schedule when that status is OPTIMAL or FEASIBLE, else an empty schedule; the schedule is always well formed and never gives one employee two entries with the same start |
| Scheduler.ExecuteOptimization | python-backend/app.py:31-102 | an empty script gives 400 "No Python script provided" before OR-Tools is checked; missing OR-Tools gives 500; only then is the script run. It succeeds with the run's result and output when the run finishes, and fails (500) with the run's error, traceback and output exactly when the run raises |
| Chat.SimulateFollowsRuleTable | src/components/ChatWindow.tsx:87-154 | the reply is the one of the first rule, in order, whose keywords occur in the lower-cased input, or the general help |
| Chat.CaseInsensitive | src/components/ChatWindow.tsx:91 | an input and its lower-cased form get the same reply |
| Chat.ProposalIffConstraintKeyword | src/components/ChatWindow.tsx:93-143 | a constraint is proposed exactly when one of the first four rules matches |
| Chat.ProposalParameters | src/components/ChatWindow.tsx:103-143 | each proposal kind carries its fixed parameters: availability and shift times enforced, capacity respected with a queue, priority weight 0.8 not strict, none for the overview |
| Chat.SavedRow | src/components/ChatWindow.tsx:156-166 | the saved row copies type and description, takes `parameters` or `{}`, and has priority 1 and is active |
| Chat.RowToSave | src/components/ChatWindow.tsx:71-74 | a row is saved exactly when the reply proposes a constraint, and it is that proposal's row |
| Chat.ChatWindow.constructor | src/components/ChatWindow.tsx:19-28 | the panel opens with the greeting alone, an empty input and nothing loading |
| Chat.ChatWindow.SetInput | src/components/ChatWindow.tsx:255 | typing replaces the input and nothing else |
| Chat.ChatWindow.HandleSendMessage | src/components/ChatWindow.tsx:42-85 | blank input changes nothing; otherwise the user message then the reply are appended, the input is cleared, loading ends, and the reply's proposal is the row saved |
| Chat.ChatWindow.HandleKeyPress | src/components/ChatWindow.tsx:179-184 | Enter without Shift sends: on a blank input nothing changes, otherwise the user message and the reply are appended, the input is cleared and loading has ended. Every other key changes nothing. Either way the old messages stay a prefix of the new ones |
| Chat.SendDisabled | src/components/ChatWindow.tsx:263 | the send button is disabled exactly while loading or while the input is blank |
| Text.TrimEmptyIffBlank | src/components/ChatWindow.tsx:43 | `trim()` gives the empty string exactly when every character is JavaScript whitespace |
| LlmResponse.ExtractConstraints | src/services/anthropic.ts:141-159 | each of the four flags is present, and true, exactly when its phrase occurs; no other key is set |
| LlmResponse.ExtractIsFirstBlock | src/services/anthropic.ts:84-85 | an extracted script follows the first opening fence and runs to the nearest closing fence after it |
| LlmResponse.ExtractNoneMeansNoBlock | src/services/anthropic.ts:84-85 | no script means no opening fence is followed anywhere by a closing fence |
| LlmResponse.ExtractRoundTrip | src/services/anthropic.ts:84-85 | a body without a closing fence, fenced, is extracted unchanged |
| LlmResponse.ExcerptOf | src/services/anthropic.ts:40-43 | the prompt shows the first three entries (or all, if fewer) and the full count |
| LlmResponse.CallBackend | src/services/anthropic.ts:87-125 | exactly one backend is called, the script executor for a non-empty script and the direct optimiser otherwise. `schedule` is set only from a successful call (with a truthy result on the script path), and always is then; a rejected call leaves it null. `executionResult` is any resolved answer on the script path, and only a successful one on the direct path |
| LlmResponse.OptimizeSchedule | src/services/anthropic.ts:29-139 | a failed model call is rethrown with the "Failed to optimize schedule: " prefix and no backend call. Otherwise the content is the first block's text, the script is what the fence match extracts, and exactly one backend is called (the script executor for a non-empty script, else the direct optimiser). `schedule` is set only from a successful call (with a truthy result on the script path). `executionResult` is any resolved answer on the script path, and only a successful one on the direct path. Each of the four flags is present exactly when its phrase occurs in the content |
| Metrics.StatusCount | src/components/AnalyticsDashboard.tsx:97-99 | a status count is at most the row count; it is 0 exactly when no row has that status, and it is the row count exactly when every row does |
| Metrics.StatusCountIsMultiplicity | src/components/AnalyticsDashboard.tsx:97-99 | a status count is exactly the number of rows carrying that status |
| Metrics.StatusesPartitionRows | src/components/AnalyticsDashboard.tsx:96-99 | completed, in progress, delayed and the other rows add up to the total |
| Metrics.CountsOf | src/components/AnalyticsDashboard.tsx:96-99 | a null list counts as zero rows, and the three counts never exceed the total |
| Metrics.OnTimeRate | src/components/AnalyticsDashboard.tsx:100 | the rate is 0 with no rows, never negative, at most 100 for consistent counts, 100 exactly when all rows are completed, and 0 exactly when there are no rows or none is completed |
| Metrics.RateOfRows | src/components/AnalyticsDashboard.tsx:100 | on rows the rate lies in [0, 100]; it is 100 exactly when there are rows and all are completed, and 0 exactly when none is |
| Metrics.ScheduledSize | src/components/AnalyticsDashboard.tsx:145 | the Scheduled slice is the non-negative remainder; it makes the slices sum to the total whenever the counts allow it |
| Metrics.SlicesSumToTotal | src/components/AnalyticsDashboard.tsx:141-145 | from rows the four slices sum to the total, and the Scheduled slice is exactly the rows of any other status |
| Metrics.ScreenOf | src/components/AnalyticsDashboard.tsx:211-233 | the spinner is chosen exactly while loading; the figures exactly when not loading and with no non-empty error; otherwise the error screen, carrying the message. This is the choice of screen only: as written, the dashboard cannot render its error screen (see Left out) |
| Dashboard.WithCounts | src/components/AnalyticsDashboard.tsx:103-110 | the updater replaces the four counts and the rate with consistent values, the rate in [0, 100], and keeps the three chart lists |
| Dashboard.AnalyticsDashboard.constructor | src/components/AnalyticsDashboard.tsx:47-72 | the dashboard starts loading, with no error and the initial record |
| Dashboard.AnalyticsDashboard.LoadAnalytics | src/components/AnalyticsDashboard.tsx:75-118 | success replaces only the counts and the rate and clears the error; a database error sets "Failed to load assignments from database" and keeps the analytics; an exception sets its message or "Unknown error occurred"; loading is false after every attempt; the figures are shown exactly after a success; consistency is kept |
| Dashboard.StatusChartData | src/components/AnalyticsDashboard.tsx:137-156 | the chart has four values that sum to the total for consistent counts |
| Dashboard.ChartAfterLoad | src/components/AnalyticsDashboard.tsx:141-151 | after a load each chart value is the number of rows in that slice |
| Dashboard.ActiveWorkers | src/components/AnalyticsDashboard.tsx:448 | the active-worker count is at most the entry count; it is 0 exactly when no entry has assignments, and it is the entry count exactly when every entry does |
| Dashboard.ActiveWorkersCountsActive | src/components/AnalyticsDashboard.tsx:448 | the active-worker badge is exactly the number of positions whose employee has a positive assignment count (null counting as 0) |
| Dashboard.AverageUtilization | src/components/AnalyticsDashboard.tsx:458-460 | the average is 0 with no equipment, and otherwise it is the sum divided by the number of entries |
| Dashboard.SumWithin | src/components/AnalyticsDashboard.tsx:459 | per-entry bounds bound the summed utilisation |
| Dashboard.AverageWithin | src/components/AnalyticsDashboard.tsx:458-460 | the average lies between any lower and upper bound of the entries |
| SimpleAnalytics.SimpleAnalyticsView.constructor | src/components/SimpleAnalytics.tsx:10-12 | the view starts with no rows, loading and without an error |
| SimpleAnalytics.SimpleAnalyticsView.LoadData | src/components/SimpleAnalytics.tsx:14-34 | the error is cleared; rows (or `[]` for null) replace the list on success; a database error or an exception sets its message or "Failed to load data" and keeps the rows; loading is false after every attempt |
| SimpleAnalytics.SummaryOf | src/components/SimpleAnalytics.tsx:65-69 | the total is the row count, the three counts do not exceed it, and the rate is in [0, 100] and 0 without rows |
| SimpleAnalytics.SummaryCountsRows | src/components/SimpleAnalytics.tsx:65-68 | each count is the number of rows of its status, and the counts plus the other rows add up to the total |
| SimpleAnalytics.OptimizationCardFor | src/components/SimpleAnalytics.tsx:72-82 | without stored text, or when it cannot be parsed, the "no optimization" card is shown; the results card needs non-empty stored text that parses to a truthy value, and then it shows that value |
| Calendar.FirstWithKey | src/components/CalendarView.tsx:74-75 | `find` returns the first row with the key, or nothing when no row has it |
| Calendar.LabelIsFirstNameOrKey | src/components/CalendarView.tsx:74-79 | a label is the first matching row's name when that name is non-empty, and the raw id otherwise |
| Calendar.ToEvents | src/components/CalendarView.tsx:73-84 | one event per assignment, in order, with the same id and times, the two-part title, and the row as its resource |
| Calendar.EventsAreTheRows | src/components/CalendarView.tsx:73-84 | every event carries an assignment and every assignment has an event |
| Calendar.EventStyleGetter | src/components/CalendarView.tsx:219-234 | completed is green #10B981, in_progress amber #F59E0B, delayed red #EF4444 and anything else blue #3B82F6, the same colour the status chart gives that status's slice |
| Calendar.ExportRows | src/components/CalendarView.tsx:203-211 | one export row per event, names resolved by the title's fallback, times formatted, status copied, notes defaulting to "" |
| Calendar.ExportAgreesWithTitles | src/components/CalendarView.tsx:204-206 | the exported employee and product names are exactly the two halves of each event's title |
| Calendar.LoadFailure | src/components/CalendarView.tsx:59-67 | the load fails exactly when one of the three queries does not return rows |
| Calendar.CalendarView.constructor | src/components/CalendarView.tsx:41-54 | the calendar starts empty, with nothing selected, an empty form and the dialog closed |
| Calendar.CalendarView.LoadData | src/components/CalendarView.tsx:57-94 | on success the employee and product lists are stored and the events rebuilt from the assignments; on failure the message is returned and nothing changes |
| Calendar.CalendarView.HandleSelectEvent | src/components/CalendarView.tsx:100-102 | clicking an event selects its row and changes nothing else |
| Calendar.CalendarView.HandleSelectSlot | src/components/CalendarView.tsx:104-113 | selecting a slot fills start and end, clears the other fields and opens the dialog, with creation disabled |
| Calendar.CalendarView.EditForm | src/components/CalendarView.tsx:279-343 | each input replaces its own field only |
| Calendar.CalendarView.SetDialogOpen | src/components/CalendarView.tsx:350 | Cancel and the dialog's open-change set only whether the dialog is open |
| Calendar.CalendarView.CreateAssignment | src/components/CalendarView.tsx:115-151 | the inserted row copies the form fields and has status "scheduled"; on success the dialog closes and the form is emptied, so creation is disabled; on failure nothing changes |

## Left out

- The CP-SAT solver itself is an oracle. It may return any status; whenever it reports OPTIMAL or FEASIBLE, its values satisfy the posted model.
- Scheduler.BuildVariables: a repeated slot key in the source creates a fresh solver variable and replaces the old one in the dict. The model keeps one key per slot and does not model the orphaned variable.
- Scheduler.Materialise: the source calls `datetime.now()` once per entry. The model uses a single `now`, so a run that crosses midnight is not modelled.
- Scheduler.OptimizeSchedule: the catch-all 500 for exceptions (a row without `employee_id` or `product_code`, a body that is not an object) is not modelled. Nor are the response's `timestamp` and ISO-8601 time strings. Entries are seconds of naive local time.
- Scheduler.ExecuteOptimization: running the script is an oracle. Not modelled: the restricted builtins, the stdout capture and the "Server error" catch-all.
- The health route, the Flask/CORS setup and the server entry point.
- Chat: the reply texts are reduced to their kind. Also not modelled: message ids and timestamps, scrolling, the toasts, and the database insert behind `saveConstraints` (the model returns the row).
- Chat.ChatWindow.HandleSendMessage: the reply never throws, so the error toast is unreachable and not modelled.
- Chat.ChatWindow.HandleSendMessage: the one-second wait for the reply is taken as one step. So the state during that wait is not modelled: the user message is shown, loading is on and Send is disabled.
- Text: only ASCII letters are lower-cased, so Unicode case mapping is not modelled.
- LlmResponse.OptimizeSchedule: the prompt prose and the HTTP clients are not modelled. A reply with no content block is folded into the failed call. Null and absent `schedule` are both `None`. Which backend error is logged is not modelled.
- Dashboard: chart.js rendering and `toFixed` formatting are not modelled. Nor is the window event that triggers a reload, which is the same load.
- Dashboard: src/components/AnalyticsDashboard.tsx uses `Button` (lines 227 and 583) and `Label` (lines 336-353) but imports neither (lines 1-21). As written, rendering the error screen throws a ReferenceError, and so does the render catch's own fallback. Metrics.ScreenOf models which screen the component selects; rendering is not modelled.
- The dashboard's "Optimization" tab is not modelled. As written, any stored stats reach the unimported `Label` and throw into the render catch, whose fallback throws again. Stored text that does not parse fails earlier, at the unguarded `JSON.parse`, and also ends in the render catch.
- SimpleAnalytics: the storage read is a parameter. The card's rendering is not modelled.
- Calendar.CalendarView.CreateAssignment: the reload after a successful insert is the separate `LoadData` call, which is not chained inside.
- Calendar: the status update and the delete (`updateAssignmentStatus`, `deleteAssignment`) are persistence calls and are not modelled. Nor are view/date navigation or the XLSX file writing.
- Calendar: start and end stay as the row's text, because date parsing and moment formatting are a parameter or not modelled.
- Records: `employee_id` and `product_code` are non-null strings in the model. A null id would be rendered as text, and that is not modelled.
- Calendar.CalendarView.LoadData: `Promise.all` is taken to reject with the first rejected query in argument order.
- Persistence (Supabase), file I/O, the sample data, the uploader and the page layout are outside the modelled core.
