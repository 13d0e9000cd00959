# NeuroPsyResearchApp — a Dafny model of its core

NeuroPsyResearchApp is a Kivy app for research on motor control. In the
Circle Task, a participant matches the size of a disk to a ring using two
sliders, "df1" and "df2". The practice and testing blocks are optionally
constrained. The app records the slider end points and grab/release times
of every trial. It stores the data locally, uploads it to a results
server or e-mails it.

This project models the parts of the app that hold its logic:

- `Sliders`: the touch-to-handle test of `ScaleSlider` and the events it raises (src/widgets/sliders.py).
- `Settings`: the configuration properties that are checked, the block/trial bookkeeping and the constraint flag (src/settings.py).
- `CircleTask`: the Circle Task screen (src/widgets/screencircletask.py). It covers the trial schedule, slider grabs and releases, the per-trial table, the slider-use warnings, block validation, the difficulty rating, and the meta data and session data handed to the data manager.
- `DataManager`: the data manager (src/datamanager.py). It covers the collected records, file names and sub-folders, writing to storage, the upload body for the Dash server, classifying the server's reply, and the e-mail text.
- `Managers`: the screen manager (src/widgets/managers.py). It covers the back key, the quit-on-second-press counter and routing after a block.
- `Instructions` and `InstructionTexts`: the instruction screen's title, intro, paragraphs and image (src/widgets/screeninstructions.py).
- `App`: the application's configuration defaults, the language switch and the upload route (src/app.py).
- `Utility`: the platform helpers and the markdown-to-bbcode tag parser (src/utility.py).
- `ScrollLabel`: the style-tag stack of `RecycleLabel` and the merging of rendered lines whose tags are not balanced (src/widgets/scrolllabel.py).
- `Legacy`: the older single-file version of the app in main.py. It has `SettingsContainer`, a two-column `ScreenCircleTask` that writes one CSV per block, and `UCMManager`.

The other modules hold values and helpers:

- `Wrappers`: Option.
- `Strings`: Python's `str`, `join`, `strip`, `format`, `repr` and `lower` for what the app uses.
- `Records`: Python values and the insertion-ordered `meta_data` dict.
- `JsonData`: parsed JSON.

Design choices:

- **Objects and values.** Objects whose fields the source updates are classes. Their methods state the whole new state, usually through a specification function of the old state. Pure helpers are functions, and lemmas prove their properties.
- **Outside effects are values.**
  - The Kivy clock is fields that the environment drives: `interval`, the pending `start_trial` callbacks and the countdown flag.
  - Touches are values.
  - The file system is a map from path to content, and folders are a set.
  - Events and notifications are sequences that methods append to.
- **Library results are givens.** Results of numpy, pickle, md5, base64 and JSON parsing that the source only passes on are functions given to the constructors.

## Model

| member | source | states |
|---|---|---|
| Sliders.OnHandleIsDistance | src/widgets/sliders.py:11-16 | a touch is on the handle iff it lies within half the handle's width and height, scaled by the tolerance, of the handle's centre |
| Sliders.OnTouchDown | src/widgets/sliders.py:18-21 | the base class always handles the touch, last; `on_grab` is dispatched iff the touch is on the handle; nothing else is dispatched |
| Sliders.OnTouchUp | src/widgets/sliders.py:23-28 | the base class always handles the touch, last; `on_ungrab` is dispatched iff the touch is on the handle; nothing else |
| Sliders.OnTouchMove | src/widgets/sliders.py:30-36 | the base class always handles the touch, last; `on_leave` is dispatched iff the touch is horizontally more than half the handle width from its centre |
| Sliders.OnHandleDoesNotLeave | src/widgets/sliders.py:30-36 | a move that is on the handle never dispatches `on_leave` |
| Settings.VerifiedCount | src/settings.py:103-106 | a count property keeps the configured value iff it is positive (or the error value), else takes the error value; with a positive error value the result is positive |
| Settings.VerifiedDuration | src/settings.py:108-113 | the same for the duration properties |
| Settings.VerifiedSettingsPositive | src/settings.py:103-113 | whatever the configuration holds, trials, blocks and the three durations are positive, and so is their sum |
| Settings.CircleTaskSettings.InterTrialInterval | src/widgets/screencircletask.py:186-187 | the tick period exceeds each of its three phases |
| Settings.CircleTaskSettings.constructor | src/settings.py:103-117 | the fields are the verified configuration values; `constraint` starts false |
| Settings.CircleTaskSettings.SetConstraintSetting | src/settings.py:119-120 | `constraint` holds iff the given block is the constrained block |
| Settings.LocalStorageAfter | src/settings.py:87-99 | enabling local storage sticks iff write permission is granted; otherwise it is reset to 0; a value of 0, or one that does not change the property, is kept |
| Settings.LocalStorageNeedsPermission | src/settings.py:87-99 | after a change, local storage is enabled only with write permission |
| Settings.SettingsContainer.constructor | src/settings.py:122-129 | the configured values are stored, block and trial start at 0, and the undeclared current user, current task and vibration and sound switches are the values given |
| Settings.SettingsContainer.OnCurrentBlock | src/settings.py:139-142 | for the Circle Task the constraint follows the new block; other tasks leave it alone |
| Settings.SettingsContainer.SetCurrentBlock | src/settings.py:139-142 | assigning the block fires the handler only when the value changes, which is Kivy's property semantics |
| Settings.SettingsContainer.ResetCurrent | src/settings.py:127-129 | block and trial become 0, with the constraint handler run if the block changed |
| Settings.SettingsContainer.NextBlock | src/settings.py:131-133 | the trial becomes 0 and the block increments; for the Circle Task the constraint then tells whether the new block is the constrained one |
| Settings.SettingsContainer.SetIsLocalStorageEnabled | src/settings.py:87-99 | the property after the assignment and its handler is `LocalStorageAfter` of the old value, the new value and the permission |
| CircleTask.Rel | src/widgets/screencircletask.py:123-149 | a time relative to the onset is NaN iff the onset is NaN, and otherwise adds back to the absolute time |
| CircleTask.TrialRowIndex | src/widgets/screencircletask.py:234 | trial `t` (1-based) is written to row `t - 1`; writing trial 0 hits the last row, numpy's index -1 |
| CircleTask.Zeros | src/widgets/screencircletask.py:113 | `np.zeros((n, 6))`: `n` rows of six zeros |
| CircleTask.ConcurrencyIsOverlap | src/widgets/screencircletask.py:244-259 | with all four times set and each grab before its release, neither slider warns, and the concurrency warning is off iff the two grab intervals overlap |
| CircleTask.MissingTimeWarns | src/widgets/screencircletask.py:254 | any missing grab or release time turns on the concurrency warning |
| CircleTask.InvalidIffAlwaysWarned | src/widgets/screencircletask.py:244-276 | the block is rejected iff one slider's warning was on in every trial |
| CircleTask.TreatmentCases | src/widgets/screencircletask.py:357-362 | the treatment is non-empty iff the block is constrained with constraint type 1 or 2; with type 1 it names the switched slider; it never holds a comma |
| CircleTask.BlockNumber | src/widgets/screencircletask.py:369-373 | practice blocks record 0; a testing block records the current block minus 2 when practice trials are configured |
| CircleTask.LastBlockNumber | src/widgets/screencircletask.py:295-296 | `was_last_block` holds iff the recorded testing block number equals the number of blocks |
| CircleTask.ScaledRow | src/widgets/screencircletask.py:348-350 | each cell of a row is scaled as its column requires (×100 for df1/df2, NaN kept) and rounded |
| CircleTask.Scaled | src/widgets/screencircletask.py:348-350 | the table keeps its shape, and each row is its scaled row |
| CircleTask.ScaledKeepsValidity | src/widgets/screencircletask.py:345-350 | scaling and rounding do not change whether a block is invalid |
| CircleTask.DataTable | src/widgets/screencircletask.py:383 | the table handed to numpy has the block's shape, and each cell is its value |
| CircleTask.SessionTable | src/widgets/screencircletask.py:402 | `np.array(session_data)` has the session's shape, and each cell is the value's `str()` |
| CircleTask.SessionEmailTable | src/widgets/screencircletask.py:413 | the e-mailed session list is the column names as first row, followed by one row per block holding that block's values cell by cell |
| CircleTask.ReleaseAll | src/widgets/screencircletask.py:155-164 | disabling stamps the release time of exactly the sliders still held, and keeps the onset and the grab times |
| CircleTask.RowOf | src/widgets/screencircletask.py:234-237 | a trial's row holds both normalized slider values and the four grab/release times, in column order |
| CircleTask.ConfigOf | src/widgets/screencircletask.py:87-112 | a block is a practice block iff `practice_block` is set; its trial count is then the number of practice trials; the constraint comes from the settings, the switch from the coin |
| CircleTask.ColoringMatchesTreatment | src/widgets/screencircletask.py:96-103 | the sliders drawn in colour are exactly those the recorded treatment names |
| CircleTask.SessionMeta | src/widgets/screencircletask.py:403-408 | the session's meta data has the keys table, time, time_iso, task and user, in that order, with table "session" |
| Records.PutAllGets | src/widgets/screencircletask.py:364-378 | after a run of `d[k] = v` assignments, a key reads as the last value assigned to it, and a key never assigned reads as before |
| Records.AssignedLast | src/widgets/screencircletask.py:364-378 | an assignment that no later one overwrites decides its key |
| Records.PutAllWellFormed | src/widgets/screencircletask.py:364-378 | a run of assignments keeps the dict well formed |
| CircleTask.BlockEntries | src/widgets/screencircletask.py:364-378 | `collect_meta_data` assigns ten entries, all with block keys, no key twice |
| CircleTask.BlockMetaGets | src/widgets/screencircletask.py:355-378 | after `collect_meta_data` its ten entries hold the block's context, and every other entry is unchanged |
| CircleTask.BlockRecordTable | src/widgets/screencircletask.py:380-384 | the record handed to the data manager is a "trials" table |
| CircleTask.BlockMetaWellFormed | src/widgets/screencircletask.py:355-378 | assigning the entries keeps the dict well formed: keys are unique and all have values |
| CircleTask.BlockMetaHasSessionKeys | src/widgets/screencircletask.py:386-398 | `add_block_to_session` finds every entry it reads iff a rating was saved, and the columns are always present |
| CircleTask.ScreenCircleTask.constructor | src/widgets/screencircletask.py:30-65 | no touches, times cleared, no data, empty meta and session data, no schedule |
| CircleTask.ScreenCircleTask.SliderGrab | src/widgets/screencircletask.py:123-132 | an enabled slider takes the touch, stamps its grab time relative to the onset, and hides its warning; a disabled slider changes nothing |
| CircleTask.ScreenCircleTask.SliderUngrab | src/widgets/screencircletask.py:134-149 | only the owning touch releases a slider; that slider is disabled, its release time is stamped (the touch's end time, or now while it is still running), and its touch is cleared |
| CircleTask.ScreenCircleTask.MoveSlider | src/widgets/sliders.py:30-36 | only an enabled slider moves, and its value is kept within its range |
| CircleTask.ScreenCircleTask.DisableSliders | src/widgets/screencircletask.py:151-164 | both sliders are disabled, every held touch is released and its release time stamped |
| CircleTask.ScreenCircleTask.EnableSliders | src/widgets/screencircletask.py:166-168 | both sliders are enabled, nothing else changes |
| CircleTask.ScreenCircleTask.ResetSliders | src/widgets/screencircletask.py:170-175 | both sliders go to a tenth of their maximum, and the times are cleared |
| CircleTask.ScreenCircleTask.OnPreEnter | src/widgets/screencircletask.py:84-120 | the block configuration is read, the constrained sliders are coloured, both warnings show, the table is zero with one row per trial, the countdown reads PREPARE for the trial duration, the sliders are disabled and the schedule runs with the inter-trial interval |
| CircleTask.ScreenCircleTask.SetUpBlock | src/widgets/screencircletask.py:84-119 | the set-up half of `on_pre_enter`, with the same configuration, colouring, warnings, table and countdown |
| CircleTask.ScreenCircleTask.StartTask | src/widgets/screencircletask.py:182-189 | sliders are disabled and released, progress shows the current trial, and the schedule ticks with the inter-trial interval |
| CircleTask.ScreenCircleTask.Tick | src/widgets/screencircletask.py:191-200 | at the last trial the schedule stops and the block ends as `stop_task` ends it; otherwise the trial counter increments, progress updates, the sliders reset, GET READY shows and `start_trial` is scheduled after the warm-up; the counter never passes the trial count |
| CircleTask.ScreenCircleTask.NextTrial | src/widgets/screencircletask.py:195-200 | the second branch of `get_ready` |
| CircleTask.ScreenCircleTask.StopTask | src/widgets/screencircletask.py:261-291 | the schedule is cancelled and the sliders reset; an interrupt clears the block data and nothing else; otherwise the block is checked as `StoppedAsBlockEnd` states: an invalid block clears the data, warns, marks the collection invalid and ends the session, and a valid one opens the rating popup |
| CircleTask.ScreenCircleTask.CheckBlock | src/widgets/screencircletask.py:275-291 | the validity check of `stop_task` |
| CircleTask.ScreenCircleTask.DispatchTaskStopped | src/widgets/screencircletask.py:307-314 | `on_task_stopped` is dispatched with the flag; the last block clears data, meta data and session data |
| CircleTask.ScreenCircleTask.ClearData | src/widgets/screencircletask.py:415-419 | data is None, and meta data and session data are empty |
| CircleTask.ScreenCircleTask.StartTrial | src/widgets/screencircletask.py:217-224 | sliders are enabled, the countdown runs and the onset is now |
| CircleTask.ScreenCircleTask.FireStart | src/widgets/screencircletask.py:217-224 | the oldest pending `start_trial` callback runs and is removed |
| CircleTask.ScreenCircleTask.TrialFinished | src/widgets/screencircletask.py:226-242 | the countdown stops at FINISHED, the sliders are disabled and released, and the times are cleared; with data, the trial's row is the slider values and times, and the warnings are that row's; without data (an aborted block) the table is untouched |
| CircleTask.ScreenCircleTask.ReleaseAndRecord | src/widgets/screencircletask.py:230-242 | the disabling and recording part of `trial_finished` |
| CircleTask.ScreenCircleTask.RecordTrial | src/widgets/screencircletask.py:234-238 | the current trial's row becomes the slider values and times, and the warnings follow it |
| CircleTask.ScreenCircleTask.CheckSliderUse | src/widgets/screencircletask.py:244-259 | the warnings are those for the current trial's row |
| CircleTask.ScreenCircleTask.SaveRating | src/widgets/screencircletask.py:341-343 | the rating is stored in the meta data |
| CircleTask.ScreenCircleTask.CollectMetaData | src/widgets/screencircletask.py:355-378 | the meta data becomes the block meta data of the current context, treatment, time and table hash; the session keys are present iff a rating was saved |
| CircleTask.ScreenCircleTask.AddBlockToSession | src/widgets/screencircletask.py:386-398 | one session row is appended, from the meta data and the durations |
| CircleTask.ScreenCircleTask.AddDataToManager | src/widgets/screencircletask.py:380-384 | the manager receives the meta data with the CSV bytes, and for e-mail the pickled table |
| CircleTask.ScreenCircleTask.DataCollection | src/widgets/screencircletask.py:345-353 | the table is scaled and rounded, the meta data is collected over the scaled table, one session row is added, and one record each goes to storage/upload and to e-mail |
| CircleTask.ScreenCircleTask.DataCollectionOutcome | src/widgets/screencircletask.py:345-353 | the table becomes the scaled, rounded one, the meta data describes it, the session gains the block's row, and the data manager receives the CSV record and the pickled record of that table, a "trials" record |
| CircleTask.ScreenCircleTask.CollectTestingBlock | src/widgets/screencircletask.py:297-299 | the same new state and records, with the screen's invariant kept |
| CircleTask.ScreenCircleTask.HandOverSession | src/widgets/screencircletask.py:400-413 | the data manager receives the session's CSV record and its e-mail record, the first a "session" table |
| CircleTask.ScreenCircleTask.AddSessionDataToManager | src/widgets/screencircletask.py:400-413 | the session table with its column header goes to storage/upload under the session meta data; the column row plus the session rows, pickled, goes to e-mail |
| CircleTask.ScreenCircleTask.PreTaskStopped | src/widgets/screencircletask.py:293-314 | the popup is closed; the data manager receives the testing block's records and, after the last block, the session records of the session including this block; `on_task_stopped` is dispatched with `was_last_block`; the last block clears data, meta data and session, any other block leaves them as collected; practising with a rating above 3 shows the hint |
| CircleTask.ScreenCircleTask.SubmitBlock | src/widgets/screencircletask.py:297-304 | a testing block's data, meta data and session become the collected ones and its two records go to the data manager; a practice block changes none of these; a practice block with a rating above 3 shows the hint |
| CircleTask.ScreenCircleTask.EndBlock | src/widgets/screencircletask.py:305-314 | after the last block the data manager receives the records of the session as it was, and data, meta data and session are cleared; any other block changes none of them; the event is dispatched with the flag |
| DataManager.FilenameShape | src/datamanager.py:201-221 | every name ends in ".csv"; each known table with its keys has its own prefix; any other record is named after the current time |
| DataManager.OutcomeKeyError | src/datamanager.py:245-271 | a record fails with the meta-data KeyError iff it has no table, or is a per-user table without task or user |
| DataManager.OutcomeData | src/datamanager.py:223-271 | past the key check, a record is written iff its data is bytes or str, with that content; it fails as missing iff it has no data |
| DataManager.OutcomePath | src/datamanager.py:245-271 | a written record's path ends with its compiled file name |
| DataManager.Outcomes | src/datamanager.py:254-271 | one outcome per record, in order |
| DataManager.MessagesCount | src/datamanager.py:223-271 | each record that is not written reports exactly one failure; no failures iff every record was written |
| DataManager.StoreAfterFrom | src/datamanager.py:223-243 | after writing, every file was already there or was written by a record |
| DataManager.StoreAfterLastWrite | src/datamanager.py:223-243 | the last record written to a path decides its content |
| DataManager.WrittenPlacement | src/datamanager.py:245-271 | records of session, trials and user tables land in `<storage>/<task with "_" for " ">/<user>`, others in storage itself |
| DataManager.EarlierFailureNotReflected | src/datamanager.py:266-271 | `is_data_saved` reflects only the last record: a failed record followed by a written one still counts as saved |
| DataManager.DashPostRaisedSticks | src/datamanager.py:274-308 | once base64 raises on a non-bytes value, later records change nothing |
| DataManager.DashStepGrows | src/datamanager.py:274-308 | each record adds its file name and at most one content entry, which is a base64 data URL |
| DataManager.DashPostCounts | src/datamanager.py:274-308 | contents ≤ modification dates ≤ file names ≤ records; without a raise every record contributes a content entry or a failure |
| DataManager.DashPostNames | src/datamanager.py:274-308 | the i-th upload file name is the compiled name of the i-th record |
| DataManager.DashPostPrefix | src/datamanager.py:274-308 | every uploaded content is a base64 data URL |
| DataManager.GetResponse | src/datamanager.py:310-319 | a reply gives its text; a failed request gives an error text starting with "ERROR" |
| DataManager.ParseResponse | src/datamanager.py:321-347 | a non-JSON reply is used if it is at most 150 characters, else replaced by the unexpected-error text; with JSON it raises iff a lookup raises; a found props value overrides the output value, so it is the message when truthy and gives the error text when falsy; without a props value a truthy output value is the message; with neither truthy the message is the error text |
| DataManager.UploadedStatusText | src/datamanager.py:349-364 | a text counts as sent iff its lower-case form does not contain "error" |
| DataManager.ErrorTextNotSent | src/datamanager.py:349-364 | an error text never counts as sent |
| DataManager.FailedRequestNotSent | src/datamanager.py:310-364 | a failed request is reported and does not count as sent |
| DataManager.EmptyReplyCountsAsSent | src/datamanager.py:321-364 | an empty reply is passed on as the message and counts as sent |
| DataManager.KeyLinesShape | src/datamanager.py:415 | one `key: str(value)` line per key, in order |
| DataManager.EmailDataAppend | src/datamanager.py:413-416 | the e-mail data of two lists of records is the concatenation of their texts |
| DataManager.DataManager.constructor | src/datamanager.py:40-53 | empty collections, every flag false, no files, folders, failures or uploads |
| DataManager.DataManager.ClearDataCollection | src/datamanager.py:68-74 | both collections are empty and all three flags false |
| DataManager.DataManager.AddData | src/datamanager.py:142-156 | the record stored is the meta data with `data` set to the CSV bytes under the joined header, appended at the end |
| DataManager.DataManager.AddDataEmail | src/datamanager.py:158-160 | the meta data with the pickled table is appended to the e-mail list |
| DataManager.DataManager.CreateSubfolder | src/datamanager.py:182-191 | the folder `<storage>/<sub>` exists afterwards |
| DataManager.DataManager.WriteFile | src/datamanager.py:223-243 | bytes and str content is written to the path; any other content leaves the files alone and reports the unknown format |
| DataManager.DataManager.WriteRecord | src/datamanager.py:254-269 | one loop pass: files, folders and failures change as the record's outcome says |
| DataManager.DataManager.WriteDataToFiles | src/datamanager.py:245-271 | files, folders and failures are the fold of every record's outcome, and `is_data_saved` is set by the last record |
| DataManager.DataManager.GetDashPost | src/datamanager.py:274-308 | the upload body is the fold `DashPostOf` of the records |
| DataManager.DataManager.UploadData | src/datamanager.py:366-377 | without permission nothing happens; otherwise the body's failures are reported, and unless building it raised, the parsed reply sets `is_data_sent` and is dispatched |
| DataManager.DataManager.ComposeEmail | src/datamanager.py:398-419 | the e-mail goes to the recipient with the "New <app> Data Set" subject; its text is the disclaimer, the data header and every e-mail record |
| Managers.UCMManager.constructor | src/widgets/managers.py:14-17 | the back-key counter starts at 0, with no notifications and no quit |
| Managers.UCMManager.SetCurrent | src/widgets/managers.py:24-29 | switching to another screen resets the counter; reselecting the same screen keeps it |
| Managers.UCMManager.GoHome | src/widgets/managers.py:57-59 | the Home screen is current, and the counter resets if the screen changed |
| Managers.UCMManager.KeyInput | src/widgets/managers.py:31-55 | only Escape is handled; on Home it counts, hints once and quits on the second press; on Settings it closes the settings; a running Circle Task is interrupted; the Webview back handler runs; all other screens go Home |
| Managers.UCMManager.TaskFinished | src/widgets/managers.py:61-67 | after the last block the Outro is shown, otherwise the instructions screen of the configured task; a task without instructions raises the KeyError |
| Managers.UCMManager.PressBackTwiceAtHome | src/widgets/managers.py:33-40 | two back presses on Home show the hint once and quit |
| Managers.CircleTaskRouting | src/widgets/managers.py:17 | the Circle Task is the one task with instructions, "Instructions CT" |
| Instructions.TestingTitleNamesRecordedBlock | src/widgets/screeninstructions.py:29-37 | a testing block's title carries the block number the data records |
| Instructions.PracticeTitleNamesPracticeBlock | src/widgets/screeninstructions.py:32-33 | a practice block's title carries the practice block number |
| Instructions.BlockHintCases | src/widgets/screeninstructions.py:48-53 | no hint iff no practice block and no practice trials; after practice the hint names the first or second practice task by constraint; in practice the practice hint |
| Instructions.TrialCountMatchesBlock | src/widgets/screeninstructions.py:60-63 | the trial count announced is the count the Circle Task screen runs |
| Instructions.TaskCountCases | src/widgets/screeninstructions.py:65-67 | two tasks iff constrained; the plural suffix appears iff more than one task |
| Instructions.NTrialsTextShape | src/widgets/screeninstructions.py:64 | the trials sentence is the template with the count in its field |
| Instructions.ParagraphsShape | src/widgets/screeninstructions.py:103-108 | five paragraphs: the second-task paragraph is non-empty iff constrained; the first-task, time-limit and trial paragraphs are in their places |
| Instructions.ImageShowsTwoTasksIffConstrained | src/widgets/screeninstructions.py:116-121 | the two-task image iff constrained, the one-task image otherwise |
| Instructions.ScreenInstructCircleTask.constructor | src/widgets/screeninstructions.py:18-20 | an empty screen bound to its settings and texts |
| Instructions.ScreenInstructCircleTask.OnPreEnter | src/widgets/screeninstructions.py:22-27 | the block advances, and the title, intro, paragraphs and image describe the new block |
| Instructions.ScreenInstructCircleTask.SetMessage | src/widgets/screeninstructions.py:43-114 | the intro and paragraphs are those of the current settings |
| InstructionTexts.EnglishTestingTitle | src/widgets/screeninstructions.py:36 | in English, "<n>. Testing Block" |
| InstructionTexts.EnglishPracticeTitle | src/widgets/screeninstructions.py:33 | in English, "<n>. Practice Block" |
| InstructionTexts.EnglishTrials | src/widgets/screeninstructions.py:64 | in English, "There are a total of <n> trials in this block." |
| App.UploadRouteShape | src/app.py:141-157 | the route is the server URI stripped of every leading and trailing "/", plus the Circle Task's Dash path for that task only |
| App.SetDefaultsIdempotent | src/app.py:70-90 | applying `setdefaults` twice is applying it once |
| App.SetDefaultsSpec | src/app.py:70-90 | `setdefaults` creates the section, keeps every option already set, and adds the missing ones |
| App.BuildConfigLookup | src/app.py:65-90 | after `build_config` an option is its old value if set, else its default |
| App.BuildConfigKeeps | src/app.py:65-90 | `build_config` never overwrites an option the user set |
| App.BuildConfigIdempotent | src/app.py:65-90 | running `build_config` on its own result changes nothing |
| App.FreshConfig | src/app.py:65-90 | a fresh configuration holds exactly the defaults |
| App.BlockDefaults | src/app.py:81-85 | 20 trials, 3 blocks, constrained block 2 |
| App.TimingDefaults | src/app.py:86-88 | warm-up 1.0, trial 3.0, cool-down 0.5 |
| App.DataCollectionDefaultValues | src/app.py:74-80 | local storage off, upload on, e-mail off |
| App.IdentityDefaults | src/app.py:70-90 | first run, the generated user id, the default language, the webserver, the contact as recipient |
| App.UserAliasAfterBuild | src/app.py:92-98 | after `build_config` the current user exists, and it gets an alias |
| App.NeuroPsyResearchApp.constructor | src/app.py:33-45 | the app holds its configuration and language, with no settings rebuilt |
| App.NeuroPsyResearchApp.OnConfigChange | src/app.py:125-133 | a language change switches the language and rebuilds the settings screen, raising if that screen does not exist; other keys change nothing |
| App.NeuroPsyResearchApp.UpdateLanguageFromConfig | src/app.py:135-139 | the language becomes the configured one; an absent option raises and leaves it |
| Utility.DeviceIdentifierShape | src/utility.py:71-77 | the identifier is every fourth hex digit of the md5 digest, 8 characters |
| Utility.AskPermissionCases | src/utility.py:94-115 | other platforms answer yes without asking; Android answers the current grant, and requests exactly when not granted |
| Utility.IsWindowLandscapeCases | src/utility.py:46-57 | on the desktop landscape iff width > height; on Android by orientation 2 or 1, and None for any other orientation |
| Utility.TagsInExceptedPortionSpec | src/utility.py:149-165 | a tag is excepted iff some exception match contains its start or its end |
| Utility.Slice | src/utility.py:204-217 | Python slicing `s[i:j]` has the clipped length |
| Utility.SpliceInside | src/utility.py:211-217 | a match inside the text is replaced by the tag pair around its inner text, and the length changes by the tags minus the markers |
| Utility.SpliceAtEnd | src/utility.py:204-209 | a match at the very end drops the trailing text |
| Utility.SpliceKeepsPrefix | src/utility.py:204-217 | splicing keeps the text before the match |
| Utility.ParseStepMatch | src/utility.py:184-202 | one pass: the match is located from the search position, excepted matches are skipped, others spliced, and the position moves past the opening marker |
| Utility.ParseTagsStop | src/utility.py:184-188 | the parse stops when the search finds nothing |
| Utility.ParseTagsNoMatch | src/utility.py:184-188 | with no match the text is unchanged |
| Utility.ParseTagsKeepsPrefix | src/utility.py:181-217 | the parser never changes text before its search position |
| Utility.SingleTagContextParser | src/utility.py:167-218 | the loop computes `ParseTags`: at most as many passes as the initial matches, each pass as `ParseStep` says |
| ScrollLabel.PushCounts | src/widgets/scrolllabel.py:124-127 | a push adds one to its style and no other |
| ScrollLabel.PopCounts | src/widgets/scrolllabel.py:129-133 | a pop takes one from a positive count of its style, leaves a zero count at zero, and touches no other style |
| ScrollLabel.PopAfterPush | src/widgets/scrolllabel.py:124-133 | a pop undoes a push |
| ScrollLabel.StackEmptyIffNoneOpen | src/widgets/scrolllabel.py:135-137 | the stack is empty iff no style is open |
| ScrollLabel.MarkupElementsSpec | src/widgets/scrolllabel.py:113-117 | the markup elements concatenate back to the text, and none is empty |
| ScrollLabel.EffectsUniform | src/widgets/scrolllabel.py:166-230 | an element pushes or pops at most two styles, and never both pushes and pops |
| ScrollLabel.PlainTextIgnored | src/widgets/scrolllabel.py:227-230 | text without "[" changes no style |
| ScrollLabel.BracketCounted | src/widgets/scrolllabel.py:166-230 | any element with "[" pushes or pops something |
| ScrollLabel.ScriptOpeners | src/widgets/scrolllabel.py:211-219 | `[sub]` and `[sup]` push font size and script |
| ScrollLabel.ScriptClosers | src/widgets/scrolllabel.py:214-222 | `[/sub]` and `[/sup]` pop them |
| ScrollLabel.UnknownTags | src/widgets/scrolllabel.py:227-230 | unknown tags push and pop the "unknown" style |
| ScrollLabel.CountTagsNonNegative | src/widgets/scrolllabel.py:159-230 | no count ever goes below zero |
| ScrollLabel.PlainItemsIgnored | src/widgets/scrolllabel.py:159-230 | a line of plain elements leaves the stack as it was |
| ScrollLabel.GlueLinesSpec | src/widgets/scrolllabel.py:148-157 | gluing appends the line's text, adds at most one line, and adds a new line when the tags are balanced or there is no line yet |
| ScrollLabel.ConcatAllText | src/widgets/scrolllabel.py:146-157 | the merged lines hold exactly the input text, in order |
| ScrollLabel.ConcatAllCount | src/widgets/scrolllabel.py:146-157 | merging never adds more lines than it is given |
| ScrollLabel.GetLines | src/widgets/scrolllabel.py:119-122 | a line's text is its first word, or "" for a line with no words |
| ScrollLabel.RecycleLabel.constructor | src/widgets/scrolllabel.py:98-101 | an empty stack and no lines |
| ScrollLabel.RecycleLabel.PushStyle | src/widgets/scrolllabel.py:124-127 | the stack is the pushed stack |
| ScrollLabel.RecycleLabel.PopStyle | src/widgets/scrolllabel.py:129-133 | the stack is the popped stack |
| ScrollLabel.RecycleLabel.IsStyleStackEmpty | src/widgets/scrolllabel.py:135-137 | true iff no style is open |
| ScrollLabel.RecycleLabel.StylePushPop | src/widgets/scrolllabel.py:159-230 | the stack after a line is `CountTags` of the old stack and the line |
| ScrollLabel.RecycleLabel.OnLines | src/widgets/scrolllabel.py:139-144 | the last line's tags are counted; with no lines (the IndexError case) nothing changes |
| ScrollLabel.RecycleLabel.ConcatStyleTags | src/widgets/scrolllabel.py:146-157 | the stack and lines are `ConcatAll` of the old state and the input, with each change to the lines counted as `on_lines` counts it |
| ScrollLabel.RecycleLabel.RefreshLines | src/widgets/scrolllabel.py:245-247 | the lines are cleared and re-merged from the rendered lines; they hold exactly the rendered text, in no more lines |
| Legacy.SettingsContainer.InterTrialInterval | main.py:154 | the tick period exceeds each of its three phases |
| Legacy.SettingsContainer.constructor | main.py:326-346 | the verified configuration values; block 1, trial 0, and the constraint tells whether block 1 is constrained |
| Legacy.SettingsContainer.ResetCurrent | main.py:343-346 | block becomes 1, trial 0, and the constraint is recomputed |
| Legacy.SettingsContainer.NextBlock | main.py:348-350 | the trial becomes 0 and the block increments |
| Legacy.SettingsContainer.SetConstraintSetting | main.py:352-353 | the constraint holds iff the current block is the constrained block |
| Legacy.Zeros | main.py:117 | `np.zeros((n, 2))` |
| Legacy.BlockTypeCases | main.py:216-219 | "unconstraint" iff unconstrained; the misspelt "cosntrained_df2" iff constrained with the switch; "constrained_df1" otherwise; no "-" in it |
| Legacy.UntilDash | main.py:216-220 | the inverse of the name formatted there: the text before the first "-" |
| Legacy.UntilDashOf | main.py:216-220 | the inverse of the name formatted there: reading up to the dash recovers a field without dashes |
| Legacy.ParseFileName | main.py:216-220 | the inverse of the name formatted there: a parse succeeds only for a name of this user's block files |
| Legacy.ParseFields | main.py:216-220 | the inverse of the name formatted there: block and kind fields without dashes are recovered from the name |
| Legacy.ParseAfterPrefix | main.py:216-220 | the inverse of the name formatted there: after the "user-CT-Block" prefix, a block field without dashes and the kind field are read back |
| Legacy.FileNameRoundTrip | main.py:216-220 | a block file's name gives back its block number and block type |
| Legacy.BlockFile | main.py:213-224 | a file is written iff there is data and write permission; it is named from the user, block, type and time, with header "df1,df2" and the table ×100 |
| Legacy.ScreenCircleTask.constructor | main.py:93-105 | no touches, no data, no schedule, progress "Trial: 0/0" |
| Legacy.ScreenCircleTask.OnPreEnter | main.py:113-123 | the constraint and the coin are read, the table is zero with one row per trial, the countdown is prepared, and trials start |
| Legacy.ScreenCircleTask.SliderGrab | main.py:126-130 | the slider takes the touch, even when disabled |
| Legacy.ScreenCircleTask.DisableSliders | main.py:132-141 | both are disabled and released |
| Legacy.ScreenCircleTask.EnableSliders | main.py:143-145 | both are enabled |
| Legacy.ScreenCircleTask.ResetSliders | main.py:147-149 | both go to a tenth of their maximum |
| Legacy.ScreenCircleTask.StartTask | main.py:151-156 | sliders are disabled, the schedule ticks with the interval, and progress shows the trial |
| Legacy.ScreenCircleTask.GetReady | main.py:158-166 | at the last trial the schedule stops and the block file is written, with one row per trial when writing is permitted; otherwise the next trial is prepared; the trial counter never passes the trial count |
| Legacy.ScreenCircleTask.StartTrial | main.py:177-182 | sliders are enabled and the countdown runs |
| Legacy.ScreenCircleTask.FireStart | main.py:177-182 | the oldest pending `start_trial` runs |
| Legacy.ScreenCircleTask.TrialFinished | main.py:184-190 | the countdown finishes and the sliders are disabled; the write raises iff there is no data or the row is out of range, and otherwise the trial's row is the two normalized values |
| Legacy.ScreenCircleTask.StopTask | main.py:192-201 | the schedule stops and the sliders reset; without an interrupt the block file is written and `on_task_stopped` is dispatched |
| Legacy.ScreenCircleTask.WriteData | main.py:213-224 | the files gain the block file, if any |
| Legacy.UCMManager.constructor | main.py:270-272 | the counter starts at 0 |
| Legacy.UCMManager.SetCurrent | main.py:278-283 | switching screens resets the counter |
| Legacy.UCMManager.GoHome | main.py:307-309 | Home is current |
| Legacy.UCMManager.CloseSettings | main.py:383-388 | from Settings the app goes Home and lowers the counter to -1 |
| Legacy.UCMManager.KeyInput | main.py:285-305 | only Escape is handled: on Home it counts and quits on the second press; from Settings it closes the settings; a running Circle Task is interrupted; other screens go Home |
| Legacy.UCMManager.BackFromSettings | main.py:383-388 | a back press on Settings runs `close_settings` then `key_input` and lands on Home with the counter back at 0, no hint and no quit |
| Legacy.UCMManager.TaskFinished | main.py:311-319 | the block advances and the constraint is recomputed; after the last block the Outro, otherwise the Instructions |

## Left out

- Rendering, layout, colours, sounds, vibration and the Kivy event loop. Clock callbacks are methods the environment calls; touches and the clock are parameters.
- Translation: `_()` is the English catalogue. The instruction screen's texts are a `Texts` value, so any catalogue can be given.
- The regular expressions of the markdown conversion (src/utility.py:242-253) are not modelled. `SingleTagContextParser` takes the search and the exception matches as functions, and the initial match count as a number. The `re.sub` passes for URLs, headers and quotes are not part of this model.
- `str.format` is modelled only for the `{}` and `{0}`–`{9}` fields the templates use. `%10.5f`, `np.savetxt`, `pickle.dumps`, md5, base64, `json.loads` and `np.around` are functions given to the model, not definitions, because they are library code.
- HTTP (`requests.post`), the Android permission request, the internet permission callback, `plyer` e-mail and notifications, and the file system calls. Their results are parameters, and their effects are fields that the methods update.
- `new_data_collection`, `_collect_device_data`, `get_device_data`, `add_user_data`, `get_storage_path` and `_remove_user_folders` in src/datamanager.py gather device data or remove folders on disk. They are outside the modelled data flow.
- The settings panels, `display_settings`, `build`'s widget tree, `get_application_config`, `on_pause` and `on_resume` in src/app.py are UI.
- `close_settings` in src/app.py sends the manager to `last_visited`. That property belongs to the navigation widgets, which are not part of this model. The src/widgets/managers.py model counts the call instead.
- `_set_intro_height` and the `Clock.schedule_once` around it only set a widget height.
- main.py: `ScreenHome`, `ScreenOutro`, `ScreenInstruct`, `CountDownLbl`, `ScaleSlider` and the remaining `UncontrolledManifoldApp` members are UI or duplicate the modelled src/ versions. The `UncontrolledManifoldApp` members left out are `build_config`, `build_settings`, `display_settings` and `on_config_change`.
- CircleTask.ScreenCircleTask.TrialFinished: requires that the row index is within numpy's range. The source would raise IndexError there, which its `except TypeError` does not catch.
- CircleTask.ScreenCircleTask.ReleaseAndRecord: the same requirement as TrialFinished.
- CircleTask.ScreenCircleTask.StopTask: requires data unless interrupted. `stop_task` without data raises on `self.data[:, 2]`, which this model does not reproduce.
- CircleTask.ScreenCircleTask.DataCollection: requires data and a saved rating. The source reads both without a check and would raise a TypeError or KeyError.
- CircleTask.ScreenCircleTask.PreTaskStopped: requires a saved rating. If the popup is dismissed without a rating, the source raises a KeyError, and this model does not reproduce that path.
- DataManager.DataManager.WriteDataToFiles: requires that task and user of per-user records are strings. The source builds a path from them and would raise otherwise.
- DataManager.DataManager.WriteRecord: the same requirement as WriteDataToFiles.
- Paths in src/datamanager.py are `pathlib` joins; the model joins plain strings with "/". An empty task or user part therefore gives a doubled "/" where `pathlib` drops the part, and an absolute user part does not replace the path before it.
- Managers.UCMManager.KeyInput: requires a valid Circle Task screen only when Escape interrupts it.
- CircleTask.ScreenCircleTask.MoveSlider: Kivy's value clamping is modelled as `Clamp`; slider steps are not.
- Legacy.ScreenCircleTask.StopTask: `on_task_stopped` is a counter; `release_audio` is omitted.
- Where src/settings.py and the screens disagree, the model follows the code. The screens read `practice_block`, `n_practice_trials` and `constraint_type`, which src/settings.py does not declare, so they are configuration inputs. The same holds for `current_user`, `current_task`, `is_vibrate_enabled` and `is_sound_enabled`, which the screens, the data manager and the app read: they are constructor parameters of `Settings.SettingsContainer`. The constraint is `current_block == constrained_block` without any offset for practice blocks.
