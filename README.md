# Sports-coach backend: a Dafny model

This project models the core of a workout-coaching service. It covers:

- the FastAPI backend (`Backend/main.py`): user and plan-request validation, the
  clean-up and parsing of a language model's plan document, the build of a plan
  tree (plan, days, exercise types, exercise instances) from that document,
  session reporting, plan update and cascading delete, progress summaries, and
  the history-aware adjustment of an exercise's current reps and sets;
- the tool handlers of the two MCP servers (`Backend/mcp_server.py`,
  `Backend/mcp_server_enhanced.py`), which answer the same questions with text
  replies;
- the front-end user store (`frontend/src/stores/user.js`).

The database is the class `Entities.Database`. Its one field `committed` holds
the committed tables, maps from row id to row. A handler works on a copy (a
session), writes to the database at each commit point of the source, and drops
the copy on rollback. Each method's contract pins the committed state after the
call: which rows were added or removed, what they hold, and that nothing else
changed. Pure functions and ghost predicates specify them, and the lemmas
beside those state what the service promises:

- adjustments keep reps in the band `1 .. int(target * 1.3)` and never raise
  the sets, however many sessions are replayed;
- a cleaned reply with an object embedded in prose or code fences yields that
  object;
- a batch of reports adds exactly one row per entry, touches only the reported
  instances and never changes a target;
- a cascade delete removes exactly the plan's rows and leaves the links between
  the remaining rows intact;
- a plan built from a document holds one instance per exercise entry;
- a report written by a tool caller is read back as the same report and records
  the same rows as the HTTP endpoint;
- a formatted duration reads back as the same number of seconds.

The source does some things that a natural reading of its design would not
suggest. The model follows the code in each case:

- **Plan creation is not atomic.** `generate_workout_plan` commits after the
  plan row, after each day and after each new exercise type
  (`Backend/main.py:464`, `:476`, `:496`). A failure part-way leaves those rows
  behind. `PlanBuilder.BuildPlan` states exactly which rows remain
  (`PlanBuilder.Stopped`): the plan row, every day row reached, one new type per
  name reached that had none, all instances of the days before the last one
  reached, and those of the last day staged before its last new type, whose
  commit flushed them.
- **Rest days get instances.** A day marked `rest_day` still gets every
  exercise listed under it.
- **One adjustment per report.** The endpoint schedules an adjustment per
  report entry, so an instance reported twice is adjusted twice.
- **A reply without braces is parsed as it is.** A reply that has no `{ … }`
  pair is handed to `json.loads` unchanged after the fences are stripped.
- **The MCP report schedules nothing.** The `report_workout_session` tool
  records the rows and updates the instances, but schedules no adjustment.
- **Validation is that of pydantic 2.** Every failing field is reported, and a
  field's own validator runs only after its length and range constraints have
  passed.

Inputs the service gets from outside become parameters:

- the language model's reply is `raw: Option<string>`, where `None` means the
  call failed;
- `json.loads` is `parse: string -> Option<Json>`;
- the clock is `now: int`, in seconds;
- a failing database statement during a delete is `fault: Option<nat>`, the
  index of the statement that fails.

## Model

| member | source | states |
|---|---|---|
| Entities.FindUser | Backend/main.py:293-297 | a user is found exactly when the id is a non-negative key of the user table, and the row found is that key's row |
| Entities.FindPlan | Backend/main.py:299-303 | a plan is found exactly when the id is a key of the plan table, and the row found is that key's row |
| Entities.SelectTopByKey | Backend/main.py:317-323 | the ids returned are the `limit` newest rows of the set, newest first and without repeats (ORDER BY date DESC LIMIT n) |
| Entities.TopPrefix | Backend/main.py:317-320 | a prefix of an ORDER BY … LIMIT result is the result of the same query with the smaller limit |
| Adjustment.SuccessRate | Backend/main.py:330 | the success rate is a fraction in [0, 1]: 1 when every report succeeded, 0 when none did |
| Adjustment.MeanRpe | Backend/main.py:329 | the mean RPE: zero for an empty window, otherwise the value that times the window size gives the sum of its RPEs |
| Adjustment.MeanRpeBounds | Backend/main.py:329 | the mean RPE of a non-empty window lies between the bounds of its reports |
| Adjustment.Classify | Backend/main.py:337-348 | deload exactly when mean RPE >= 8.5 or success <= 0.4; progress exactly when not deloading and mean <= 4.0 and success >= 0.9; maintain otherwise |
| Adjustment.DeloadReps | Backend/main.py:339 | deloaded reps are `int(reps * 0.9)` (truncated) and never below 1 |
| Adjustment.RepCap | Backend/main.py:343 | the rep cap is `int(target * 1.3)` and is at least the target for positive targets |
| Adjustment.Effective | Backend/main.py:334-335 | the current value when it is set and non-zero, the target otherwise (Python's `or`) |
| Adjustment.Decide | Backend/main.py:325-326 | no decision exactly when fewer than two reports are in the window |
| Adjustment.DecideRule | Backend/main.py:334-348 | the new reps and sets of each of the three rules, in terms of the effective current values |
| Adjustment.RepsStayInBand | Backend/main.py:337-348 | if the effective reps lie in 1..cap, so do the new reps |
| Adjustment.SetsNeverIncrease | Backend/main.py:337-348 | sets never grow, stay positive, and a deload above two sets removes exactly one |
| Adjustment.ReplayStaysInBand | Backend/main.py:308-356 | any sequence of adjustments keeps reps within 1..cap and sets within 1..the starting sets |
| Adjustment.FreshInstanceStaysInBand | Backend/main.py:500-511 | an instance created at its targets stays in band under any sequence of adjustments |
| Adjustment.DeloadExample | Backend/main.py:337-340 | a hard window turns 10x3 into 9x2 |
| Adjustment.ProgressExample | Backend/main.py:341-344 | an easy window turns 10 reps into 12 |
| Engine.HistoryOf | Backend/main.py:317-319 | the history rows are exactly the reports of that user on that instance |
| Engine.WrittenKeeps | Backend/main.py:350-355 | writing an in-band prescription keeps every target and keeps all instances in band |
| Engine.DecisionInBand | Backend/main.py:334-348 | a decision on an in-band instance is in band and keeps the sets positive |
| Engine.AdjustByHistory | Backend/main.py:308-360 | a missing instance or a window under two reports changes nothing; otherwise the three newest reports decide, the store becomes `Adjusted` of the reports read, and only current reps, current sets and the update time of that instance change; targets and the band are kept |
| Engine.Adjusted | Backend/main.py:308-360 | one adjustment keeps every instance's target and day and every report |
| Engine.AdjustedInBand | Backend/main.py:308-360 | one adjustment keeps every instance in the repetition band |
| Engine.Replayed | Backend/main.py:674-679 | the scheduled adjustments in order keep the set of instances, every report and every other table |
| Engine.ReplayedKeeps | Backend/main.py:674-679 | running adjustments one after another changes only instances, keeps every target and day, and keeps the band |
| Engine.RunScheduled | Backend/main.py:674-679 | the store after the scheduled adjustments is exactly their replay in order, each reading the newest reports of the user on its instance; only instances change, targets and the band are kept |
| Text.Strip | Backend/main.py:261 | the result has no surrounding whitespace |
| Text.StripIdempotent | Backend/main.py:261 | stripping twice is stripping once |
| Text.Find | Backend/main.py:268 | the first index of a character, -1 exactly when it is absent |
| Text.RFind | Backend/main.py:269 | the last index of a character, -1 exactly when it is absent |
| Text.NatToStringRoundTrip | Backend/mcp_server.py:519-521 | the decimal text of a number reads back as that number |
| PlanResponse.DropOpeningFence | Backend/main.py:262-263 | a leading ```` ```json ```` is removed, and nothing else is |
| PlanResponse.DropClosingFence | Backend/main.py:264-265 | a trailing ```` ``` ```` is removed, and nothing else is |
| PlanResponse.SliceObject | Backend/main.py:267-271 | with a `}` after the first `{`, the text from the first `{` to the last `}`; otherwise the text unchanged |
| PlanResponse.HasDays | Backend/main.py:276 | the `in` test is defined for objects, lists and strings only, and on an object is key membership |
| PlanResponse.ParsePlanResponse | Backend/main.py:258-282 | invalid JSON exactly when `json.loads` fails on the cleaned text; once the cleaned text parses, the answer is the document exactly when the `in` test finds `days`, the missing-days error exactly when it does not, and the not-searchable error exactly when the document is a number, boolean or null |
| PlanResponse.StripAround | Backend/main.py:261 | stripping a text around a body that starts and ends with non-space keeps the body intact |
| PlanResponse.SliceAround | Backend/main.py:267-271 | prose without braces around an object is cut away exactly |
| PlanResponse.CleanFindsEmbeddedObject | Backend/main.py:258-271 | the clean-up of any reply that embeds one object among brace-free prose and fences yields exactly that object |
| PlanDraft.ReadExercise | Backend/main.py:482-511 | an exercise entry is an object; missing fields take the source's defaults (name "Unknown Exercise", rest 60, no equipment) |
| PlanDraft.ReadExercises | Backend/main.py:479-511 | the entries read are a prefix of the list, each read by ReadExercise, stopping at the first unreadable one |
| PlanDraft.ReadDay | Backend/main.py:468-477 | a day entry defaults to day 1, title "Day n", no rest, no exercises |
| PlanDraft.ReadDays | Backend/main.py:468-511 | the days read are a prefix of the list, all complete but the last; complete exactly when every day was read whole |
| PlanDraft.ReadPlan | Backend/main.py:457-465 | a plan document defaults its title to "AI Plan for " + name and its description to "AI-generated workout plan" |
| PlanBuilder.TypesNamed | Backend/main.py:483-487 | the exercise types whose name equals the entry's name |
| PlanBuilder.NewType | Backend/main.py:488-496 | a new exercise type takes the entry's name, sets (default 3) and reps (default 10) |
| PlanBuilder.AmbiguityIsInherited | Backend/main.py:486-487 | when a name lookup finds two types, two were there before the request: the build never creates a duplicate name |
| PlanBuilder.NewInstance | Backend/main.py:500-511 | a new instance starts with its current sets and reps at its targets |
| PlanBuilder.FirstWith | Backend/main.py:482-497 | the first position of an entry with a given name: every earlier entry has another name |
| PlanBuilder.CreatesIff | Backend/main.py:483-487 | the name lookup finds no type exactly when no type had the name before the build and no earlier entry had it |
| PlanBuilder.TypesFromReuse | Backend/main.py:483-487 | an entry whose name has exactly one type adds no type |
| PlanBuilder.TypesFromCreate | Backend/main.py:487-497 | an entry whose name has no type adds the type made from it, and every name reached then has exactly one type |
| PlanBuilder.SeenUnambiguous | Backend/main.py:483-487 | no name the build got past matched two types before the build |
| PlanBuilder.FlushStep | Backend/main.py:494-496 | the instances committed within a day advance to all staged so far exactly at an entry that creates a type |
| PlanBuilder.ResolveType | Backend/main.py:482-497 | the find-or-create of a type: two matches stop with nothing written; one match is reused with nothing committed; no match creates the type from the entry and commits it with everything staged |
| PlanBuilder.StageExercise | Backend/main.py:482-511 | an exercise either finds two types of its name (stop, nothing written) or stages one instance with a new id built from the entry; the committed tables are unchanged, or become the staged ones plus the new type exactly when the entry creates one |
| PlanBuilder.AddExercises | Backend/main.py:479-511 | the exercises of a day are staged in order, one instance each, up to the first ambiguous name; the types are exactly those the entries reached call for, and the committed instances are the day's start plus those staged before its last new type |
| PlanBuilder.BuildDay | Backend/main.py:468-511 | a day row is committed, then its exercises are staged; a stop gives its reason (`StopReason`) and leaves exactly the rows `Stopped` describes |
| PlanBuilder.StoppedFromBuilding | Backend/main.py:468-525 | a rollback between two commit points keeps exactly what `Stopped` describes |
| PlanBuilder.AmbiguousStop | Backend/main.py:482-525 | a rollback at an ambiguous name keeps exactly what `Stopped` describes |
| PlanBuilder.BuildDays | Backend/main.py:468-511 | all days are built in order, or the build stops at the first incomplete day or ambiguous name, every earlier day complete, with exactly the rows `Stopped` describes committed |
| PlanBuilder.BuildPlan | Backend/main.py:456-525 | when built: the plan row, its day rows and one instance per entry, with one new type per new name; when stopped: the first failing entry (`StoppedAt`) and exactly the rows the commits before it made durable (`Stopped`) |
| PlanService.Prepare | Backend/main.py:443-454 | the request is refused as invalid, unknown user, no reply or malformed document, in the source's order, before any write |
| PlanService.RefusalReply | Backend/main.py:443-526 | an invalid request is a 422, an unknown user a 404, and every generation failure a 500 |
| PlanService.OnePerEntry | Backend/main.py:500-511 | a built plan adds exactly one instance per exercise entry of the document |
| PlanService.BuildRequested | Backend/main.py:456-525 | the tree build and its reply, as `Answered` says: a 201 with the whole tree, or a 500 after the first failing entry with exactly the rows committed before it |
| PlanService.NoAmbiguity | Backend/main.py:483-487 | with unique type names a name lookup never finds two types |
| PlanService.GenerateWorkoutPlan | Backend/main.py:443-526 | a refusal answers its status and writes nothing; otherwise the reply is a 201 with the plan's fields and the whole tree, or a 500 after the first failing entry leaving exactly the rows committed before it (`Answered`) |
| Validators.ValidateUser | Backend/main.py:119-143 | a user is accepted exactly when the name, email, age, gender, fitness level and goals each pass; refusals list the failing fields; gender and level are lower-cased choices |
| Validators.ValidateUserIdempotent | Backend/main.py:133-143 | validating an accepted user again gives the same user |
| Validators.ValidatePlanRequest | Backend/main.py:153-166 | days default to 7 and must lie in 3..21; preferences at most 500 characters; focus areas at most 10, all known |
| Validators.ReportErrors | Backend/main.py:168-174 | a report entry fails on exactly the fields outside RPE 1..10, reps 0..200, sets 0..15, duration 0..7200 |
| Validators.ValidateReports | Backend/main.py:623-636 | a batch is accepted exactly when every entry is, and a refusal names the errors of every entry |
| Validators.ValidatePlanUpdate | Backend/main.py:176-179 | an update is accepted exactly when title and description fit 200 and 1000 characters |
| Reporting.Gate | Backend/main.py:623-636 | invalid bodies are 422; then unknown user 404, unknown plan 404, another user's plan 403; otherwise the batch proceeds |
| Reporting.Stage | Backend/main.py:658-669 | one entry adds one report row under the next id, keeps every other report, and changes no instance except the one it names |
| Reporting.AfterBatch | Backend/main.py:639-669 | the staged batch keeps the plan layout, the users, plans and types, and advances the id counter by the number of entries |
| Reporting.FirstMissing | Backend/main.py:639-656 | the first entry whose instance is not in the plan, or none when all are |
| Reporting.BatchReports | Backend/main.py:639-671 | a batch adds exactly one report row per entry, with fresh ids, and keeps every earlier row |
| Reporting.BatchCount | Backend/main.py:639-671 | the report table grows by exactly the batch's length |
| Reporting.BatchInstances | Backend/main.py:667-669 | each instance's last RPE is that of its last entry in the batch and its update time is now, and it is unchanged otherwise |
| Reporting.BatchKeepsTargets | Backend/main.py:667-669 | recording a batch keeps every target and keeps instances in band |
| Reporting.ReportSession | Backend/main.py:623-685 | a refused batch writes nothing; an entry outside the plan is a 404 naming it and writes nothing; otherwise every row is committed and one adjustment per entry is scheduled |
| Progress.PeriodReports | Backend/main.py:696-705 | the rows of the user dated at or after the cutoff |
| Progress.Summarize | Backend/main.py:710-722 | the count of the period's rows and the first ten of them |
| Progress.SummaryEmpty | Backend/main.py:711-713 | with no report the count, mean and rate are zero |
| Progress.SummaryBounds | Backend/main.py:711-713 | the rate is a fraction and the mean of a non-empty period lies in 1..10 |
| Progress.UserProgress | Backend/main.py:696-722 | the query returns every report of the period, newest first, and the summary is taken over exactly those rows |
| Progress.RecentNewest | Backend/main.py:698-722 | the count is that of the period's reports and the listed ones are the ten newest, newest first |
| Progress.GetUserProgress | Backend/main.py:687-722 | unknown user exactly when there is no reply; otherwise the summary of the period's reports, newest first, over 30 days when `days` is not given; nothing is written |
| PlanAdmin.Patched | Backend/main.py:575-586 | a null title or null activity cannot be stored; owner, length and creation time never change |
| PlanAdmin.PatchWrites | Backend/main.py:580-582 | each supplied field is written and each absent one kept |
| PlanAdmin.PatchIdempotent | Backend/main.py:575-586 | applying the same update twice is applying it once |
| PlanAdmin.UpdatePlan | Backend/main.py:575-586 | a 422 or 404 writes nothing; a null title or activity fails the commit with nothing written; otherwise the plan row is replaced by the patched one |
| PlanAdmin.ColumnNamed | Backend/mcp_server.py:577-578 | a column name denotes exactly one modelled column |
| PlanAdmin.SetAttr | Backend/mcp_server.py:577-578 | `setattr` writes one column and leaves the others and the creation time unchanged |
| PlanAdmin.ApplyUpdates | Backend/mcp_server.py:577-580 | the updates apply exactly when each is settable, and then each named column holds its new value and every other keeps its old one |
| PlanAdmin.Cascade | Backend/main.py:593-612 | the cascade deletes the plan row and only ever removes rows: users, types and the id counter are kept |
| PlanAdmin.CascadeRemoves | Backend/main.py:593-612 | a cascade removes exactly the plan, its days, their instances and the plan's reports, and nothing else |
| PlanAdmin.CascadeLinked | Backend/main.py:593-612 | after a cascade every remaining row's references still resolve |
| PlanAdmin.DeleteCascade | Backend/main.py:593-618 | the delete commits the whole cascade, or a failing statement rolls everything back |
| PlanAdmin.DropEachDay | Backend/main.py:603-604 | the per-day loop removes the instances of all the plan's days, or fails exactly at the failing statement |
| PlanAdmin.DeletePlan | Backend/main.py:588-618 | an unknown plan is a 404; a failing statement is a 500 with nothing written; otherwise the cascade is committed |
| McpServer.IdArg | Backend/mcp_server.py:462-464 | an id argument is read exactly when it is present and an integer |
| McpServer.EntryRoundTrip | Backend/mcp_server.py:486-515 | a report entry written as a tool argument reads back as the same entry and is recordable |
| McpServer.BatchRoundTrip | Backend/mcp_server.py:486-515 | a whole batch written as tool arguments reads back unchanged |
| McpServer.CheckEntry | Backend/mcp_server.py:486-515 | an entry is staged exactly when its instance is in the plan, it carries none of `user_id`, `plan_id`, `date` and `id`, and its column fields are well typed; any other key is ignored; an entry outside the plan is reported by its id |
| McpServer.ExtraKeyIgnored | Backend/mcp_server.py:505-509 | a key that is not a column of the report row is dropped: the entry is recordable and stores the same values with or without it |
| McpServer.FirstHalt | Backend/mcp_server.py:486-515 | the first entry the loop stops at, or none when every entry is staged |
| McpServer.RecordEntries | Backend/mcp_server.py:486-521 | a stop answers for the first failing entry and writes nothing; otherwise the whole batch is committed as the HTTP endpoint commits it, and the reply counts the rows |
| McpServer.ReportWorkoutSession | Backend/mcp_server.py:461-521 | missing ids raise; unknown user, unknown plan or another user's plan answer a text and write nothing; otherwise the entries are recorded |
| McpServer.ToolRecordsLikeHttp | Backend/mcp_server.py:461-521 | a batch written by a tool caller stages every entry and commits the same tables as the HTTP endpoint |
| McpServer.RecordedCount | Backend/mcp_server.py:519-521 | the recorded text carries the count of reports as its decimal digits |
| McpServer.GetUser | Backend/mcp_server.py:346-356 | a missing id raises; an unknown user answers the not-found text; otherwise the user's fields |
| McpServer.GetUserPlans | Backend/mcp_server.py:379-388 | the user's plans, newest first |
| McpServer.DaysArg | Backend/mcp_server.py:525 | `days` defaults to 30 and must be an integer |
| McpServer.GetUserProgressTool | Backend/mcp_server.py:523-564 | unknown user answers a text; otherwise the summary of the period's reports, newest first; nothing is written |
| McpServer.UpdateData | Backend/mcp_server.py:568 | the update is every argument except `plan_id` |
| McpServer.UpdatePlanTool | Backend/mcp_server.py:566-585 | unknown plan answers a text; an unsettable update raises with nothing written; otherwise each named column takes its new value |
| McpServer.DeletePlanTool | Backend/mcp_server.py:587-627 | unknown plan answers a text; a failing statement leaves everything; otherwise the cascade is committed |
| McpServer.HandleCallTool | Backend/mcp_server.py:344-638 | each known tool answers, and leaves the store, exactly as its branch does (the report, update, delete, plans and progress answers, and `get_user`); unknown tools answer a text; `generate_workout_plan` answers a fixed notice; reads write nothing; an error answer never leaves a write behind |
| McpEnhanced.RequestInput | Backend/mcp_server_enhanced.py:126-128 | a request is read exactly when every supplied field has its type; `days` absent stays absent; equipment defaults to false |
| McpEnhanced.RequestRoundTrip | Backend/mcp_server_enhanced.py:126-128 | a request written as tool arguments reads back as itself |
| McpEnhanced.RefusalResult | Backend/mcp_server_enhanced.py:125-203 | invalid bounds raise, an unknown user answers the not-found text, and every other refusal is a generation failure |
| McpEnhanced.BuildResult | Backend/mcp_server_enhanced.py:137-203 | a built plan answers its confirmation; any other outcome is a generation failure |
| McpEnhanced.GenerateWorkoutPlanTool | Backend/mcp_server_enhanced.py:125-203 | a refusal writes nothing; otherwise the plan tree is built as by the HTTP endpoint, leaving exactly the rows `PlanService.Answered` describes, and the answer follows its outcome |
| McpEnhanced.UnknownUserCreatesNothing | Backend/mcp_server_enhanced.py:131-133 | a valid request for an unknown user answers the not-found text |
| McpEnhanced.HandleCallTool | Backend/mcp_server_enhanced.py:106-249 | `get_user` and `get_user_progress` answer as the basic server; generation answers and leaves the store exactly as its branch does; unknown tools answer a text; only generation writes; an error answer never leaves a write |
| UserStore.Merge | frontend/src/stores/user.js:91-93 | a spread merge: every key of either side, the update's values winning |
| UserStore.MergeIdempotent | frontend/src/stores/user.js:103-105 | merging the same update twice is merging it once |
| UserStore.Stamped | frontend/src/stores/user.js:107-112 | the stored session carries the new id and date and every other field of the session |
| UserStore.Store.constructor | frontend/src/stores/user.js:5-53 | the initial state: the sample profile, running and the coach selected, the default session data, the two sample sessions with their ids, sports, durations, completion and agents, dated by the two clock readings, and route "/" |
| UserStore.Store.LastSession | frontend/src/stores/user.js:56-60 | the newest session, none exactly when the history is empty |
| UserStore.Store.RecentSessions | frontend/src/stores/user.js:62-64 | the last five sessions, newest first |
| UserStore.Store.TotalSessions | frontend/src/stores/user.js:66-68 | the number of sessions |
| UserStore.Store.SetUserProfile | frontend/src/stores/user.js:91-93 | the profile is merged with the update; nothing else changes |
| UserStore.Store.SetSelectedSport | frontend/src/stores/user.js:95-97 | the sport is set; nothing else changes |
| UserStore.Store.SetSelectedAgent | frontend/src/stores/user.js:99-101 | the agent is set; nothing else changes |
| UserStore.Store.SetSessionData | frontend/src/stores/user.js:103-105 | the session data is merged with the update; nothing else changes (`updateSessionData`, lines 116-118, is the same operation) |
| UserStore.Store.AddSessionToHistory | frontend/src/stores/user.js:107-114 | the stamped session is appended: the count grows by one and it becomes the last and most recent session |
| UserStore.Store.ClearSessionData | frontend/src/stores/user.js:120-124 | session data, sport and agent are cleared; profile, history and route are kept |
| UserStore.Store.SetCurrentRoute | frontend/src/stores/user.js:126-128 | the route is set; nothing else changes |
| UserStore.Store.ResetUserData | frontend/src/stores/user.js:130-144 | the profile is reset and the history emptied, so there is no last session; the route is kept |
| UserStore.JsRem | frontend/src/stores/user.js:149 | JavaScript's `%`: the remainder takes the sign of the dividend |
| UserStore.FormatDuration | frontend/src/stores/user.js:147-151 | the text ends in "s"; with `DurationParts` and `DurationRoundTrip` it reads back to its seconds |
| UserStore.DurationParts | frontend/src/stores/user.js:147-151 | a duration is whole minutes and the remaining seconds, written "Xm Ys" or "Ys" |
| UserStore.DurationRoundTrip | frontend/src/stores/user.js:147-151 | a formatted duration reads back as the same number of seconds |

## Left out

- HTTP, MCP framing, tool schemas and logging: answers are values (`Reply`,
  `ToolResult`) rather than responses, and the exact text of an exception
  message is not modelled.
- The language-model call and the prompt (`Backend/main.py:198-256`). The reply
  is the parameter `raw`.
- `json.loads`. It is the parameter `parse`, and no property of JSON's own
  grammar is assumed.
- Floating point. RPE values and statistics are exact reals, and the two-decimal
  rounding of the progress reply is not modelled.
- Adjustment.DeloadReps: `int(reps * 0.9)` is the exact truncation of
  `9 * reps / 10`. The binary value of 0.9 lies slightly above the decimal one,
  and below 2^48 the rounding error of the float product is under 0.05, so the
  two agree for whole operands from 0 to 2^48, far beyond any repetition count a
  plan stores. Above that they can differ: Python gives
  `int(9000000000000001 * 0.9) == 8100000000000001`, the model 8100000000000000.
  An int too large for a float makes the source raise `OverflowError`, which
  the model does not have.
- Adjustment.RepCap: `int(target * 1.3)` is the exact truncation of
  `13 * target / 10`. It agrees with the float product for whole operands from 0
  to 2^48, for the same reason. Above that they can differ: Python gives
  `int(7000000000000003 * 1.3) == 9100000000000004`, the model
  9100000000000003. The `OverflowError` of a huge target is not modelled either.
- Concurrency. The background adjustment tasks are returned as the list
  `scheduled`, and `Engine.RunScheduled` runs them one after another.
  Interleavings with other requests are not modelled.
- Ids. The database uses one id counter for all tables, not one per table. A
  rollback restores the counter.
- Date ties. Rows dated the same second are ordered by any order that is
  newest-first.
- `timedelta` overflow for huge `days` values is not modelled.
- Typing. A present field of the wrong type is treated as a failure, in the
  plan document, in tool arguments and in report entries. The source would
  sometimes coerce it (pydantic's lax mode) or store it (SQLite is loosely
  typed). A non-integer `days` tool argument is treated the same way.
- McpServer.CheckEntry: an entry carrying an `id` key is treated as raising.
  The row model would take it as the row's id, and the store's single id
  counter does not model caller-chosen ids.
- McpServer.UpdatePlanTool: the columns `id` and `created_at` are treated as
  unsettable, so a tool update naming them raises.
- The table models' own bounds (lengths of names, titles and notes in
  `Backend/main.py:43-102`) are not enforced when rows are written. Only the
  request validators are modelled.
- The tools `list_users`, `create_user`, `get_plan_details`,
  `list_exercise_types` and `create_exercise_type` of `Backend/mcp_server.py`
  answer `Outside(name)`. The same holds for `create_user` of
  `Backend/mcp_server_enhanced.py`. The matching HTTP endpoints
  (`Backend/main.py:389-441`, `528-573`), start-up and health are not part of
  this model. They are plain reads and inserts with no logic beyond the
  handlers above.
- `formatDate`, `totalMinutes` and `weeklyStats` of the user store depend on
  the clock and on `Date` parsing. `formatDuration` is modelled for whole
  seconds only.
- Session ids from `Date.now()` are taken as given. The store does not check
  that they are unique.
- `Backend/start_mcp_server.py`, the router and the tests are not part of this
  model.
