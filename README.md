# flowforge workflow simulator — a Dafny model of its core

flowforge is a browser app that simulates business workflows step by step.
This project models the three pieces of it that hold its logic:

- the persistence and analytics store, `src/utils/storage.js`. It holds the theme, the custom workflows, the analytics snapshot and the settings. It records a finished run into the analytics: counters, per-workflow stats, a history capped at 50 entries and a rounded running mean. It upserts and deletes custom workflows by id. It exports workflows and imports them, merging by id with incoming entries winning. It also renders the analytics as CSV.
- the run state machine of `src/App.js`. A session selects a workflow, starts, pauses, resets and deletes. Each firing of the simulation interval (a *tick*) marks the previous step completed and the next one running. When it runs past the last step, the run stops and one successful run is recorded in the analytics.
- the custom workflow builder, `src/components/Builder.jsx`. It adds, removes and moves steps of a new workflow and saves it.

Files and modules:

- `common.dfy` (`Common`): `Option`, `IndexOf` (the first index of a key, which is `findIndex`) and `Filter` with its lemmas.
- `text.dfy` (`Text`): the JavaScript string behaviour the core uses. This is the decimal rendering of an integer in a template literal, `String.prototype.trim`, and newline-terminated text.
- `workflows.dfy` (`Workflows`): steps, workflows, step statuses and the three simulation speeds of `src/data/workflows.js`.
- `storage.dfy` (`Storage`): the analytics fold, the merge and delete of custom workflows, and the CSV text. It also holds the `Store` class, with one field per storage key; an absent key is `None`.
- `app.dfy` (`App`): a run as a sequence of ticks over values, and the `Session` class whose handlers update the session's fields and write through to its store.
- `builder.dfy` (`Builder`): the builder's list operations, and the `Form` class holding the builder's inputs.

`Store.Valid` says that custom-workflow ids are unique. `Session.Valid` says four things:

- the session mirrors its store (workflows, analytics, theme);
- a pause only happens during a run;
- a run always has a workflow;
- the step statuses have the shape of a run: the steps before the current index are completed, the current step is running or completed, and the steps after it are pending.

Every session handler preserves `Session.Valid`, and the constructor establishes it. The one exception is the as-written delete handler (see "## Findings").

## Model

| member | source | states |
|---|---|---|
| Common.IndexOf | src/utils/storage.js:27 | the first index holding the key, or -1 exactly when the key is absent (`findIndex` by id) |
| Text.IntToString | src/utils/storage.js:192-196 | the rendering of a number in a template literal: non-empty, digits with a leading minus exactly for negatives |
| Text.ParseNatToString | src/utils/storage.js:192-196 | the decimal rendering loses nothing: reading it back gives the number |
| Text.IntToStringDenotes | src/utils/storage.js:192-196 | the rendering of any integer is a minus sign exactly for negatives, then the decimal digits of its magnitude without leading zeros; reading them back gives the magnitude |
| Text.IntToStringInjective | src/components/Builder.jsx:15 | different integers render differently, so ids made from different clock readings differ |
| Text.Trim | src/components/Builder.jsx:12-17 | `trim()`: the piece of the input between its first and last non-whitespace characters, empty exactly when the input is all whitespace |
| Text.TrimIdempotent | src/components/Builder.jsx:16 | trimming a trimmed string changes nothing |
| Text.SplitUnlines | src/utils/storage.js:191-203 | newline-terminated lines without newlines split back into the same lines |
| Workflows.SpeedKey | src/data/workflows.js:123-127 | a speed name is a key of `simulationSpeeds` exactly when it is `SLOW`, `NORMAL` or `FAST` |
| Workflows.IntervalMs | src/data/workflows.js:123-127 | `simulationSpeeds`: SLOW ticks every 2000 ms, NORMAL every 1000 ms, FAST every 500 ms |
| Storage.RoundDivNearest | src/utils/storage.js:168-170 | `RoundDiv(a, b)` is `Math.round(a / b)`: the nearest integer, halves rounding up |
| Storage.NextAverage | src/utils/storage.js:168-170 | the new average from the old one, the runs before this one and the run's duration (stated by NextAverageRounds and FirstAverage) |
| Storage.NextAverageRounds | src/utils/storage.js:168-170 | the new average is the rounded mean of the old average over the earlier runs plus the new duration |
| Storage.FirstAverage | src/utils/storage.js:168-170 | after the first run the average is that run's duration |
| Storage.AverageDependsOnOrder | src/utils/storage.js:168-170 | the rounded running mean depends on the order of the runs (durations 1,0,0 give 1; durations 0,0,1 give 0) |
| Storage.BumpStats | src/utils/storage.js:130-148 | the per-workflow stats after a run: a zeroed entry appended for a new id, then the id's entry bumped (stated by BumpStatsLookup, BumpStatsKeys and BumpStatsInPlace) |
| Storage.BumpStatsLookup | src/utils/storage.js:130-148 | the run's workflow gets its entry bumped (created zeroed if absent); every other workflow's entry is unchanged |
| Storage.BumpStatsKeys | src/utils/storage.js:131-139 | a new workflow id is appended to the stats keys, and a known one leaves the keys and their order unchanged |
| Storage.BumpStatsInPlace | src/utils/storage.js:131-148 | the stats after the run are the old ones, with a zeroed entry appended for a new id, and the id's entry bumped in place |
| Storage.EnterStats | src/utils/storage.js:130-148 | the stats update as written: create the entry if missing, then bump it in place |
| Storage.CountRun | src/utils/storage.js:141-148 | one more run, and exactly one of successful and failed grows by one |
| Storage.LastN | src/utils/storage.js:162-165 | `slice(-50)` after a push: the last min(length, 50) entries, a suffix of the input |
| Storage.PushHistory | src/utils/storage.js:150-165 | the history gets the entry appended and keeps only its last 50 entries |
| Storage.LastNAppend | src/utils/storage.js:162-165 | capping after each push gives the same history as capping once at the end |
| Storage.RecordRun | src/utils/storage.js:121-148 | the updated snapshot: `totalRuns` is one more, exactly one of successful and failed is one more (the successful one exactly when the run succeeded), steps grow by the run's steps, and the stats are bumped |
| Storage.RecordRunHistory | src/utils/storage.js:154-165 | the history length becomes min(old + 1, 50); the new outcome is last, and only the oldest entry is dropped |
| Storage.CountIntoSnapshot | src/utils/storage.js:119-170 | the field-by-field update of the loaded snapshot computes the snapshot of the fold |
| Storage.ZeroConsistent | src/utils/storage.js:107-115 | the zero snapshot is consistent |
| Storage.BumpStatsConsistent | src/utils/storage.js:130-148 | per-workflow stats stay consistent (successful + failed = runs); the sum of runs grows by one and the sum of steps by the run's steps |
| Storage.RecordRunConsistent | src/utils/storage.js:121-148 | a consistent snapshot stays consistent: successful + failed = total runs, and the per-workflow runs and steps sum to the totals |
| Storage.RecordAllHistory | src/utils/storage.js:150-165 | after one or more runs from any snapshot, the history is the last 50 of the old history followed by all new entries |
| Storage.RecordAllCounters | src/utils/storage.js:121-126 | after any number of runs, the total grows by their count and successful/failed by the successes/failures among them |
| Storage.RecordRunCommutes | src/utils/storage.js:121-148 | the counters and the per-workflow stats do not depend on the order of two runs |
| Storage.BumpStatsSwap | src/utils/storage.js:130-148 | the stats entry of every id is the same whichever of two runs is recorded first |
| Storage.Upsert | src/utils/storage.js:25-37 | an existing id is replaced in place and its position kept, and a new id is appended; every other entry is unchanged |
| Storage.UpsertUnique | src/utils/storage.js:25-37 | unique ids stay unique after an upsert |
| Storage.Merge | src/utils/storage.js:72-83 | existing workflows keep their positions, and new ids come after them |
| Storage.MergeAll | src/utils/storage.js:73-83 | the `forEach` loop over incoming workflows computes the merge |
| Storage.MergeUnique | src/utils/storage.js:72-83 | unique existing ids stay unique after merging any incoming list |
| Storage.MergeUntouched | src/utils/storage.js:72-83 | an existing workflow whose id is not incoming is kept at its position |
| Storage.MergeIdSet | src/utils/storage.js:72-83 | an id is in the result exactly when it is among the existing or the incoming ids |
| Storage.MergeKeepsIncoming | src/utils/storage.js:76-83 | the last incoming workflow with a given id is in the result |
| Storage.MergeIncomingWins | src/utils/storage.js:76-83 | that incoming workflow is the only workflow with its id in the result |
| Storage.MergeSelf | src/utils/storage.js:72-83 | merging a list with unique ids into itself changes nothing |
| Storage.ImportedWorkflows | src/utils/storage.js:72-86 | the stored list after an accepted import: merged with an incoming list, untouched otherwise |
| Storage.ReimportKeeps | src/utils/storage.js:72-86 | re-importing the stored list leaves it unchanged |
| Storage.Delete | src/utils/storage.js:41 | the filter by workflow id (DeleteDrops, DeleteKeepsOrder and FilterUnique state what it keeps) |
| Storage.DeleteDrops | src/utils/storage.js:39-44 | no entry with the id remains; every other entry does, nothing else is added, and an absent id changes nothing |
| Storage.DeleteKeepsOrder | src/utils/storage.js:39-44 | deleting works piecewise, so the remaining entries keep their order |
| Storage.FilterUnique | src/utils/storage.js:39-44 | deleting keeps ids unique |
| Storage.CsvRow | src/utils/storage.js:201-202 | one stats row: id, runs, successful, failed, total steps, and the rounded mean duration, or 0 for no runs |
| Storage.CsvRows | src/utils/storage.js:200-203 | one row per stats entry, in stored order |
| Storage.CsvHeader | src/utils/storage.js:191-198 | the `+=` accumulation of the nine header lines produces them newline-terminated, in order |
| Storage.CsvSplitsIntoRows | src/utils/storage.js:189-206 | the CSV text splits back into exactly its nine header lines followed by one row per workflow, in stored order |
| Storage.LinesHaveNoNewline | src/utils/storage.js:189-206 | no CSV line contains a newline when no workflow id does |
| Storage.WellFormed | src/utils/storage.js:67-69 | the format check: a truthy version and a truthy workflows field |
| Storage.AsImported | src/utils/storage.js:47-61 | an exported document with a version passes the import's format check |
| Storage.Store.constructor | src/utils/storage.js:1-6 | an empty storage: no key is set, and there are no custom workflows |
| Storage.Store.GetTheme | src/utils/storage.js:10-13 | the stored theme if it is a non-empty string, else `dark` |
| Storage.Store.SetTheme | src/utils/storage.js:15-17 | the theme key holds the new theme |
| Storage.Store.GetAnalytics | src/utils/storage.js:105-116 | the stored snapshot, or the zero snapshot when none is stored |
| Storage.Store.GetSettings | src/utils/storage.js:209-216 | the stored settings, or speed `normal` with auto-save and notifications on and the other switches off |
| Storage.Store.SaveSettings | src/utils/storage.js:218-220 | the settings key holds the new settings |
| Storage.Store.SaveCustomWorkflow | src/utils/storage.js:25-37 | the stored list becomes the upsert of the workflow, and it is returned; ids stay unique |
| Storage.Store.DeleteCustomWorkflow | src/utils/storage.js:39-44 | the stored list becomes the old one without the id, and it is returned; ids stay unique |
| Storage.Store.ExportWorkflows | src/utils/storage.js:47-61 | the document holds version 1.0.0, the date, the custom workflows, the analytics and the theme |
| Storage.Store.ImportWorkflows | src/utils/storage.js:63-102 | success exactly when the input parses and has a version and a truthy workflows field. A parse error passes its message through; a failed format check gives "Invalid workflow file format"; a failure writes nothing. On success a list is merged, analytics are overwritten only if present, the theme only if truthy, and the settings are untouched |
| Storage.Store.ExportThenImport | src/utils/storage.js:47-102 | importing one's own export succeeds and leaves the workflows, analytics, theme and settings as they were |
| Storage.Store.UpdateAnalytics | src/utils/storage.js:118-174 | the stored and returned snapshot is the fold of the run into the stored one (or into the zero snapshot) |
| Storage.Store.ClearAnalytics | src/utils/storage.js:176-186 | the stored snapshot is the zero one, which equals the getter's default and is consistent |
| Storage.Store.ExportAnalyticsCsv | src/utils/storage.js:189-206 | the text is the nine header lines, then one row per workflow, each line newline-terminated |
| App.AllPending | src/App.js:103-106 | the selected workflow's steps, in order, all pending: the shape of a run not yet started |
| App.AtMostOneRunning | src/App.js:148-167 | in a run's shape, only the step at the current index can be running |
| App.MarkTick | src/App.js:152-167 | marking keeps the length and every step's identity; only statuses change |
| App.Advance | src/App.js:152-167 | the copy-and-assign update of the step array computes the marked statuses |
| App.TickLogs | src/App.js:160-173 | the log entries of one tick (TickLogsOne states them) |
| App.TickLogsOne | src/App.js:160-173 | a tick logs exactly one entry: "Starting: <title>" for the next step, or the completion message after the last |
| App.TickProgress | src/App.js:148-187 | one tick on the statuses, the index and the run flag (TickKeepsShape, TicksFromFresh and RunCompletes state its effect) |
| App.TickKeepsShape | src/App.js:148-187 | a tick keeps the shape; while the run goes on the index grows by one and that step is running; when it stops, the index is the last step's and every step is completed |
| App.TicksFromFresh | src/App.js:148-187 | after k ≤ N ticks of an N-step run the run goes on, the index is k-1 and step k-1 is running |
| App.RunCompletes | src/App.js:148-187 | after N+1 ticks an N-step run has stopped, every step is completed, and the index is N-1 (a 0-step workflow stops on the first tick) |
| App.RestartCompletesAtOnce | src/App.js:169-185 | starting a completed run again without a reset stops it at the very next tick, with nothing else changed |
| App.NextSpeed | src/App.js:81-84 | the next speed is always a key of `simulationSpeeds` |
| App.NextSpeedCycles | src/App.js:81-84 | SLOW→NORMAL→FAST→SLOW, and any other value goes to SLOW |
| App.NextSpeedThrice | src/App.js:81-84 | three presses bring a known speed back |
| App.CycleShortensInterval | src/App.js:81-84 | a press from SLOW or NORMAL halves the tick interval, and a press from FAST goes back to the 2000 ms interval |
| App.InitialSpeed | src/App.js:56 | the stored default speed, or `NORMAL` when it is empty (DefaultSpeedNamesNoInterval states what the stored default gives) |
| App.DefaultSpeedNamesNoInterval | src/App.js:55-56 | the default settings' speed `normal` is not a key of `simulationSpeeds`; one press of S turns it into `SLOW` |
| App.OtherTheme | src/App.js:216 | dark becomes light, anything else dark (OtherThemeTwice states that it is an involution) |
| App.OtherThemeTwice | src/App.js:215-220 | toggling the theme twice gives it back |
| App.TickKeepsValid | src/App.js:145-188 | a tick of an unpaused run keeps the run-related state valid |
| App.Session.constructor | src/App.js:16-58 | the initial state after mounting: workflows, analytics and theme from the store; the speed from the settings (`NORMAL` when empty); no selection, no run, no logs |
| App.Session.AddLog | src/App.js:93-96 | one entry, stamped with the clock, is appended |
| App.Session.SelectWorkflow | src/App.js:99-110 | a no-op while running; otherwise the workflow is selected, all its steps are pending, the index is -1, and the logs are replaced by one entry |
| App.Session.Start | src/App.js:113-120 | a no-op with no selection or while running; otherwise running, unpaused, started now, with one entry logged |
| App.Session.Pause | src/App.js:123-127 | a no-op unless running; otherwise the pause flag flips and a warning logs resumed or paused |
| App.Session.Reset | src/App.js:130-141 | a no-op with no selection; otherwise not running, unpaused, index -1, all steps pending, one entry logged |
| App.Session.Tick | src/App.js:145-188 | fires only when running, unpaused and with a selection. It advances the run state by one tick and logs that tick's entry. After the last step it records one successful run of all the steps, lasting since the start, and shows the store's new snapshot |
| App.Session.AdvanceRun | src/App.js:148-173 | the status and index update of one tick and its log entry; it reports whether the run finished |
| App.Session.RecordCompletion | src/App.js:176-182 | the run is folded into the stored analytics, and the session shows the result |
| App.Session.SaveWorkflow | src/App.js:195-199 | the store upserts the workflow, the list shown is the built-ins followed by the custom workflows, and a success entry is logged |
| App.Session.DeleteWorkflowAsWritten | src/App.js:202-212 | the store drops the id and the list is refreshed. Deleting the selected workflow clears the selection and steps, and leaves the session stuck if a run was going on. Otherwise nothing else changes. A warning is logged |
| App.Session.DeleteWorkflow | src/App.js:202-212 | as written, but deleting the selected workflow also ends its run, so the session stays valid |
| App.Session.DeleteFromStore | src/App.js:203-204 | the store drops the id and the list shown is refreshed |
| App.Session.Deselect | src/App.js:206-209 | the selected-workflow branch of the corrected delete handler: it clears the selection and the steps as these lines do, and also ends the run (not running, not paused), which these lines do not |
| App.Session.ToggleTheme | src/App.js:215-220 | the theme switches between dark and light and is written to the store |
| App.Session.ClearLogs | src/App.js:223-225 | the logs are empty |
| App.Session.CycleSpeed | src/App.js:79-85 | the S key sets the next speed in the cycle |
| App.DeleteWhileRunningAsWritten | src/App.js:202-212 | save, select, start, then delete the running workflow: the session ends stuck |
| App.DeleteWhileRunning | src/App.js:202-212 | the same scenario with the corrected handler is not stuck, and another workflow can then be selected and started |
| Builder.NewStepTidy | src/components/Builder.jsx:14-18 | an added step's title and description are non-empty and trimmed |
| Builder.NewStep | src/components/Builder.jsx:14-18 | the step `addStep` builds: its id starts with `step-`, its title is non-empty exactly when the typed title is not blank, and its description is never empty |
| Builder.BuildWorkflow | src/components/Builder.jsx:42-47 | the workflow `handleSave` builds: its id starts with `custom-`, its name is non-empty exactly when the typed name is not blank, its description is never empty, and its steps are the form's |
| Builder.BuiltWorkflowTidy | src/components/Builder.jsx:44-45 | a saved workflow's name and description are non-empty and carry no surrounding whitespace |
| Builder.RemoveId | src/components/Builder.jsx:26 | the filter by step id; never longer than the input (RemoveIdDrops and RemoveIdKeepsOrder state what it keeps) |
| Builder.RemoveIdDrops | src/components/Builder.jsx:25-27 | every step with the id is removed, every other step stays, nothing is added, and an absent id changes nothing |
| Builder.RemoveIdKeepsOrder | src/components/Builder.jsx:25-27 | removing works piecewise, so the remaining steps keep their order |
| Builder.Moved | src/components/Builder.jsx:30-36 | the list after `moveStep`, of the same length (MovedSwaps states the swap) |
| Builder.MovedSwaps | src/components/Builder.jsx:29-37 | a move exchanges the step with its upper or lower neighbour (nothing moves at an edge) and leaves the other positions alone; the result is a permutation of the same length |
| Builder.MoveUpThenDown | src/components/Builder.jsx:29-37 | moving up at i > 0 and then down at i-1 restores the list |
| Builder.Form.constructor | src/components/Builder.jsx:5-9 | every input empty and no steps |
| Builder.Form.AddStep | src/components/Builder.jsx:11-23 | a blank title changes nothing; otherwise exactly one step (trimmed title, trimmed description or "No description") is appended and the inputs are cleared |
| Builder.Form.RemoveStep | src/components/Builder.jsx:25-27 | the steps become the old ones without the id |
| Builder.Form.MoveStep | src/components/Builder.jsx:29-37 | the swap on a copied list gives the moved list, a permutation of the old one |
| Builder.Form.IsValid | src/components/Builder.jsx:57 | the form is valid exactly when the name is not all whitespace and there is at least one step |
| Builder.Form.HandleSave | src/components/Builder.jsx:39-57 | a workflow is produced exactly when the form is valid (non-blank name and at least one step). It carries a `custom-` id, the trimmed name, the trimmed description or "Custom workflow", and the steps; the form is then cleared. An invalid form is unchanged |

## Left out

- Browser storage and JSON: the store is typed fields, and an absent key is `None`. The import takes an already-parsed document or the parser's error message. The throw of `getCustomWorkflows` and `getAnalytics` on corrupt stored JSON is not modelled, and neither is the pretty-printed JSON text of the export.
- JSON shapes outside the modelled types: imported workflows and analytics are assumed to have the right fields. A `customWorkflows` field that is truthy but not a list passes the format check without being merged, which is modelled; other malformed contents are not.
- `|| 0` defaults in `updateAnalytics`: the run's steps and duration are always numbers in the model, as the tick supplies them.
- Object key order: JavaScript lists integer-like keys of `workflowStats` first. The model keeps plain insertion order, which is what ids like `custom-…` get.
- CSV quoting: the source quotes nothing. The round trip of the CSV text assumes workflow ids without newlines.
- Numbers: counters, durations and averages are exact integers. `Math.round` over doubles and the `${n}` rendering agree with them for the magnitudes a session produces. Beyond 2^53 doubles lose integer precision, and beyond 10^21 `${n}` switches to exponent notation; neither is modelled.
- Clocks and locale: `Date.now()`, `toISOString()` and `toLocaleTimeString()` are parameters (`Instant`, `now`, `timestamp`). Log ids come from the clock, so two entries in one millisecond can share one, as in the source.
- React and timers: `setInterval`, effects and callbacks are explicit method calls. `App.Session.Tick` is one firing of the interval. Stale closures, StrictMode's double run of state updaters, and the order in which React applies queued updates are not modelled. In particular, the tick's log entry is written after the status update.
- Keyboard wiring: only the S key's speed cycling (`App.Session.CycleSpeed`) is modelled. Space and R call `Start`, `Pause` and `Reset`, which are modelled themselves.
- Speed names: lower-case speeds from the settings have no interval. `App.DefaultSpeedNamesNoInterval` states this, but the timing of the interval itself is not modelled.
- Failure simulation: `enableStepFailure` is loaded into the session, but no code path marks a step as an error or records a failed run, so neither does the model.
- Presentation: navigation, theme classes on the document body, downloads, page reloads and the other components are not modelled.
- Builder.Form.MoveStep: requires the index of an existing step, as every call site in the builder's list passes. The source's behaviour for an index past the end (it writes holes into the array) is not modelled.
- Builder.Direction: the source compares the direction with the strings `up` and `down`; the model uses two constructors.

## Findings

| source | as written | input that shows it | evidently intended | confidence | as-written member | corrected member |
|---|---|---|---|---|---|---|
| src/App.js:202-212 | deleting the selected workflow clears the selection but leaves `isRunning` set. No tick fires without a selection, selecting and starting refuse while running, and reset refuses without a selection, so the session cannot run again until the page is reloaded | save a custom workflow, select it, start it, and delete it before it completes (the delete button is not disabled during a run) | deleting the selected workflow also ends its run | high, not executed | App.DeleteWhileRunningAsWritten | App.DeleteWhileRunning |
