# Productivity toolkit: the application state machine in Dafny

This project models the state core of a single-page productivity dashboard.

- **The application store.** One React reducer owns the state: a task list, a pomodoro countdown, a BMI record, the music player's settings, free-form notes and a few display strings.
  - A provider shell holds that state. It writes a projection of it to browser storage after every change, and it refreshes a time-of-day greeting.
- **The sections.** Five sections read the state and dispatch actions: a task manager, a pomodoro timer, a music player, a notes editor and a BMI calculator.
  - Each one adds its own derived views, guards and a little local state.

How each part is modelled:

- **Reducer** (`Reducer.Apply`): a total function over datatypes.
  - JavaScript's `undefined` becomes `Option`, and a spread becomes a patch record whose present fields replace fields of the target.
  - The clock reading that ADD_TASK takes is a parameter.
- **Provider** (`Provider.Store`): a class. `Dispatch` replaces the state by the reducer's result and keeps storage equal to the save projection of the state (`Synced`).
- **Sections:**
  - Pure decisions (views, counts, guards, index arithmetic, display texts) are functions, with lemmas relating them to reference definitions or to each other.
  - Each section that holds local React state is a class. Its handlers are methods that dispatch to the shared store.
- **JavaScript runtime behaviour** the sections rely on is written out explicitly:
  - `trim` and `\s` use the JavaScript white-space set;
  - `Number.prototype.toString` on integers, `padStart(2, '0')`, and `%` truncating toward zero;
  - `Math.floor`, and `Math.round` as rounding halves up.
- **Numbers:** integers are unbounded. The BMI arithmetic uses exact reals.

Modules:

| module | covers |
|---|---|
| `Optional` | `Option` |
| `Text` | white space, trimming, decimal numerals and their reading back, padding, truncating remainder, "M:SS" clock reading |
| `Seqs` | `Array.prototype.filter`, counts, subsequences |
| `State` | the state, task, timer, BMI, music records, the actions, the initial state |
| `Reducer` | the reducer and its per-action properties |
| `Persistence` | the save projection, reading it back as a load, the greeting rule |
| `Provider` | the store class |
| `Tasks` | the task manager section |
| `Pomodoro` | the pomodoro timer section |
| `MusicPlayer` | the music player section |
| `Notes` | the notes section |
| `BmiCalculator` | the BMI calculator section |

## Model

| member | source | states |
|---|---|---|
| Reducer.RoundTenth | components/providers/AppProvider.tsx:196 | the stored BMI is within half a tenth of the computed value |
| Reducer.AddTaskAppends | components/providers/AppProvider.tsx:96-102 | ADD_TASK appends exactly one task after the unchanged earlier ones. The new task keeps every payload field, takes its id and creation time from the clock, and nothing else in the state changes |
| Reducer.SameMillisecondCollides | components/providers/AppProvider.tsx:99 | two tasks added at the same clock reading get the same id, so ids are not unique in general |
| Reducer.AddTaskKeepsIdsUnique | components/providers/AppProvider.tsx:96-102 | ids stay unique while every earlier task was stamped at an earlier clock reading |
| Reducer.UpdateTaskPointwise | components/providers/AppProvider.tsx:104-112 | UPDATE_TASK keeps the list length and every task with another id, and merges the patch into each task with the id. Nothing outside the list changes |
| Reducer.UpdateMissingIdIsNoOp | components/providers/AppProvider.tsx:104-112 | UPDATE_TASK for an id no task has leaves the state unchanged |
| Reducer.UpdateKeepsIds | components/providers/AppProvider.tsx:104-112 | a patch without an id keeps every task's id, and so keeps ids unique |
| Reducer.DeleteTaskRemoves | components/providers/AppProvider.tsx:114-118 | DELETE_TASK keeps exactly the tasks with another id, in their original order (a subsequence, with as many elements as the input has tasks with another id), and changes nothing else |
| Reducer.DeleteTaskIdempotent | components/providers/AppProvider.tsx:114-118 | deleting an id twice is deleting it once |
| Reducer.DeleteMissingIdIsNoOp | components/providers/AppProvider.tsx:114-118 | deleting an id no task has leaves the state unchanged |
| Reducer.StartTimerRuns | components/providers/AppProvider.tsx:120-130 | START_TIMER makes the timer active, unpaused, with the given duration and kind. The break flag and colour are kept, and nothing else in the state changes |
| Reducer.PauseTwiceRestores | components/providers/AppProvider.tsx:132-139 | PAUSE_TIMER flips only the pause flag. Pausing twice restores the state whenever the flag is present |
| Reducer.ResetTimerRestores | components/providers/AppProvider.tsx:141-151 | RESET_TIMER stops the timer: not active, not paused, not on break. It restores 1500 s for a pomodoro and 1800 s otherwise, and keeps the kind and colour. Nothing else in the state changes |
| Reducer.ResetAfterCustomStart | components/providers/AppProvider.tsx:120-151 | a reset after a custom start of any length gives 1800 s |
| Reducer.TickCountsDown | components/providers/AppProvider.tsx:165-171 | with two seconds or more left, a tick only decrements the countdown |
| Reducer.TickFinishes | components/providers/AppProvider.tsx:153-164 | with one second or less left, a tick sets the countdown to 0, stops the timer and flips the break flag. It keeps the pause flag, kind and colour, and nothing else in the state changes |
| Reducer.TickKeepsNonNegative | components/providers/AppProvider.tsx:153-171 | a tick never takes a non-negative countdown below zero or above where it was |
| Reducer.ClassifyIsBand | components/providers/AppProvider.tsx:185-189 | the category is the one half-open band (<18.5, <25, <30, else) the value falls in, in both directions |
| Reducer.UpdateBmiStores | components/providers/AppProvider.tsx:182-199 | UPDATE_BMI stores the inputs, a result within 0.05 of weight/(height/100)², and the band of the unrounded value. Nothing else in the state changes |
| Reducer.UpdateBmiNormalExample | components/providers/AppProvider.tsx:182-199 | 170 cm and 70 kg store 24.2, Normal |
| Reducer.UpdateBmiUnderweightExample | components/providers/AppProvider.tsx:182-199 | 160 cm and 45 kg are Underweight |
| Reducer.SetMusicMerges | components/providers/AppProvider.tsx:201-205 | SET_MUSIC replaces exactly the music fields present in the payload and nothing else in the state. An empty payload changes nothing |
| Reducer.SetDailyFocusOnlyFocus | components/providers/AppProvider.tsx:93-94 | SET_DAILY_FOCUS: the focus reads back, restoring the old focus gives the old state, and the later of two settings wins |
| Reducer.SetNotesOnlyNotes | components/providers/AppProvider.tsx:207-211 | SET_NOTES: the notes read back, restoring the old notes gives the old state, and the later of two settings wins |
| Reducer.SetBackgroundThemeOnlyTheme | components/providers/AppProvider.tsx:213-217 | SET_BACKGROUND_THEME: the theme reads back, restoring the old theme gives the old state, and the later of two settings wins |
| Reducer.SetTimerColorOnlyColor | components/providers/AppProvider.tsx:173-180 | SET_TIMER_COLOR: the colour reads back, every other timer field and the rest of the state are kept, and the later of two settings wins |
| Reducer.LoadNotesOnly | components/providers/AppProvider.tsx:219-220 | a load carrying only the notes changes only the notes |
| Reducer.TimerFrame | components/providers/AppProvider.tsx:91-225 | only the five timer actions, or a load carrying a timer, change the timer |
| Persistence.LoadRestoresSaved | components/providers/AppProvider.tsx:252-262 | loading the saved record restores the six saved fields. It replaces the whole timer by a record with only the colour, and keeps quote, greeting and background image |
| Persistence.SaveLoadRoundTrip | components/providers/AppProvider.tsx:252-262 | saving after loading a saved record gives back that record |
| Persistence.RestoredTimerForgetsKind | components/providers/AppProvider.tsx:259-261 | a restored timer is inactive with no countdown, and a reset then gives the 30-minute custom length |
| Persistence.GreetingBands | components/providers/AppProvider.tsx:268-272 | morning iff before 12, afternoon iff 12 to 16, evening iff 17 or later |
| Persistence.GreetingUpdateSettles | components/providers/AppProvider.tsx:268-276 | a refresh sets the hour's greeting and changes nothing else. A second refresh in the same hour dispatches nothing |
| Provider.Store.constructor | components/providers/AppProvider.tsx:235-264 | mounting gives the initial state, merged with the stored record when one could be read, and storage holds its projection |
| Provider.Store.Dispatch | components/providers/AppProvider.tsx:235-264 | the new state is the reducer's result and storage holds its save projection |
| Provider.Store.RefreshGreeting | components/providers/AppProvider.tsx:267-282 | the state's greeting becomes the hour's greeting; nothing else changes |
| Tasks.ViewContents | components/sections/TaskManager.tsx:33-38 | the done view is exactly the completed tasks, and the other views are the open tasks of their category. Every view is a subsequence of the list and distributes over appending |
| Tasks.BadgeIsViewLength | components/sections/TaskManager.tsx:155-159 | each tab badge equals the length of that tab's view |
| Tasks.StatsAddUp | components/sections/TaskManager.tsx:211-226 | completed plus remaining equals total |
| Tasks.FirstWithId | components/sections/TaskManager.tsx:56 | the position `find` stops at: the first task with the id, or the end |
| Tasks.AddTaskAction | components/sections/TaskManager.tsx:40-53 | nothing is dispatched iff the title is blank. Otherwise the dispatch carries the trimmed, non-empty title, an open task, and the active tab, or the inbox for the done tab |
| Tasks.AddedTaskIsListed | components/sections/TaskManager.tsx:40-53 | the home tab's view gains exactly one entry, appended after the old view, and that entry is the new task stamped with its id and creation time. The done view is unchanged |
| Tasks.ToggleFlips | components/sections/TaskManager.tsx:55-69 | toggling patches every task with the id using the first such task: completion becomes the opposite of the first task's, and the category becomes done when completing or the first task's category when reopening. Other tasks and the rest of the state are unchanged |
| Tasks.ToggledBackIsUnlisted | components/sections/TaskManager.tsx:55-69 | a task completed and then reopened is open but filed under done, so no tab lists it. When every task with the id was open, the remaining count is the same as before |
| Tasks.SaveEditAction | components/sections/TaskManager.tsx:76-88 | an edit is dispatched iff a task is being edited and the text is not blank, and it carries the trimmed title |
| Tasks.SaveEditChangesOnlyTitle | components/sections/TaskManager.tsx:76-88 | a saved edit changes only the title of the tasks with that id |
| Tasks.MoveChangesOnlyCategory | components/sections/TaskManager.tsx:99-107 | moving changes only the category of the tasks with that id |
| Tasks.TaskManager.constructor | components/sections/TaskManager.tsx:22-25 | the section starts on the inbox tab with empty inputs and no edit |
| Tasks.TaskManager.SelectTab | components/sections/TaskManager.tsx:142 | the chosen tab becomes active |
| Tasks.TaskManager.TypeTitle | components/sections/TaskManager.tsx:183 | the title input holds the typed text |
| Tasks.TaskManager.SubmitNewTask | components/sections/TaskManager.tsx:40-53 | a non-blank title is dispatched and the input cleared. A blank one changes nothing |
| Tasks.TaskManager.Toggle | components/sections/TaskManager.tsx:55-69 | the toggle is dispatched when a task has the id; otherwise nothing changes |
| Tasks.TaskManager.StartEdit | components/sections/TaskManager.tsx:71-74 | edit mode opens on the task with its title |
| Tasks.TaskManager.TypeEdit | components/sections/TaskManager.tsx:287 | the edit input holds the typed text |
| Tasks.TaskManager.SaveEdit | components/sections/TaskManager.tsx:76-88 | a valid edit is dispatched, and edit mode is left in both cases |
| Tasks.TaskManager.CancelEdit | components/sections/TaskManager.tsx:90-93 | edit mode is left without dispatching |
| Tasks.TaskManager.Delete | components/sections/TaskManager.tsx:95-97 | DELETE_TASK for the id is dispatched |
| Tasks.TaskManager.Move | components/sections/TaskManager.tsx:99-107 | the category-only update is dispatched |
| Pomodoro.FormatTimeReadsBack | components/sections/PomodoroTimer.tsx:58-62 | the display of a non-negative countdown reads back as minutes·60 + seconds, with the seconds below 60 |
| Pomodoro.FormatTimeLayout | components/sections/PomodoroTimer.tsx:58-62 | the display is at least two minute digits, a colon, and exactly two second digits |
| Pomodoro.StartShowsWholeMinutes | components/sections/PomodoroTimer.tsx:64-65 | a session started for m minutes is m·60 seconds and shows m padded, then ":00" |
| Pomodoro.WholeMinutes | components/sections/PomodoroTimer.tsx:58-62 | a whole number of minutes shows zero seconds |
| Pomodoro.CompletionAction | components/sections/PomodoroTimer.tsx:39-56 | the effect fires iff an active pomodoro is at 0. It starts 1500 s after a break and 300 s after work |
| Pomodoro.CustomNeverAutoStarts | components/sections/PomodoroTimer.tsx:45 | a custom timer never restarts by itself |
| Pomodoro.TickNeverCompletes | components/sections/PomodoroTimer.tsx:39-56 | no state reached by a tick satisfies the completion condition, because the tick that reaches 0 also stops the timer |
| Pomodoro.AutoStartOnlyAfterZeroStart | components/sections/PomodoroTimer.tsx:39-56 | from a state where the effect is idle, the only admissible action that makes it fire is START_TIMER(0, pomodoro). This assumes a load carries no active timer |
| Pomodoro.AutoStartRuns | components/sections/PomodoroTimer.tsx:45-53 | the auto-started session is running with the right length, and does not itself complete |
| Pomodoro.PomodoroTimer.constructor | components/sections/PomodoroTimer.tsx:17-36 | custom minutes start at 30, and the interval is scheduled iff the timer should tick |
| Pomodoro.PomodoroTimer.RunEffects | components/sections/PomodoroTimer.tsx:24-56 | the completion effect runs, then the interval is rescheduled to match the timer |
| Pomodoro.PomodoroTimer.IntervalFired | components/sections/PomodoroTimer.tsx:27-30 | only a scheduled interval fires, only while the timer is active and unpaused, and it applies exactly one tick |
| Pomodoro.PomodoroTimer.Start | components/sections/PomodoroTimer.tsx:64-69 | a start from an idle timer dispatches minutes·60, and the effects settle |
| Pomodoro.PomodoroTimer.SetCustomDuration | components/sections/PomodoroTimer.tsx:242 | the custom minutes hold the entered number |
| Pomodoro.PomodoroTimer.StartCustom | components/sections/PomodoroTimer.tsx:249-251 | the custom start dispatches the custom minutes as seconds, and is reachable only while the timer is idle |
| Pomodoro.PomodoroTimer.Pause | components/sections/PomodoroTimer.tsx:71-73 | reachable only while the timer is active (the control is rendered only then). PAUSE_TIMER is dispatched and the effects settle |
| Pomodoro.PomodoroTimer.Reset | components/sections/PomodoroTimer.tsx:75-78 | reachable only while the timer is active (the control is rendered only then). RESET_TIMER is dispatched and the interval is cancelled |
| MusicPlayer.PlaylistContents | components/sections/MusicPlayer.tsx:28-50 | the playlist view is exactly that playlist's entries of the table, in table order |
| MusicPlayer.PlaylistSize | components/sections/MusicPlayer.tsx:28-38 | each playlist holds four tracks |
| MusicPlayer.PlaylistIdsDistinct | components/sections/MusicPlayer.tsx:28-38 | no two tracks of a playlist share an id |
| MusicPlayer.FindIndex | components/sections/MusicPlayer.tsx:87 | the first position holding the id, or -1 iff no track has it |
| MusicPlayer.NextIndex | components/sections/MusicPlayer.tsx:88-90 | always a valid position. Without shuffle it is the following one, with the last wrapping to the first and "not found" (-1) going to the first |
| MusicPlayer.ShuffleIndex | components/sections/MusicPlayer.tsx:89 | a random roll in [0,1) picks a valid position |
| MusicPlayer.PreviousNextInverse | components/sections/MusicPlayer.tsx:86-101 | previous and next (without shuffle) undo each other on valid positions |
| MusicPlayer.InitialMusicConsistent | components/providers/AppProvider.tsx:77-82 | the initial track belongs to the initial playlist |
| MusicPlayer.PreviousFailsOnlyOffPlaylist | components/sections/MusicPlayer.tsx:99-105 | handlePrevious throws iff the current track is not in the playlist |
| MusicPlayer.NextWrapsAround | components/sections/MusicPlayer.tsx:86-97 | next from the last track selects the first |
| MusicPlayer.NextThenPrevious | components/sections/MusicPlayer.tsx:86-108 | next then previous (without shuffle) returns to the same track |
| MusicPlayer.NextKeepsConsistent | components/sections/MusicPlayer.tsx:86-97 | next, with or without shuffle, keeps the current track in the playlist |
| MusicPlayer.PreviousKeepsConsistent | components/sections/MusicPlayer.tsx:99-108 | previous, where it does not throw, keeps the current track in the playlist |
| MusicPlayer.PlaylistChangeSelectsFirst | components/sections/MusicPlayer.tsx:117-128 | changing playlist selects its first track, stopped, at the same volume, and the result is consistent |
| MusicPlayer.SelectKeepsConsistent | components/sections/MusicPlayer.tsx:130-136 | selecting a listed track makes it current and playing, and the result is consistent |
| MusicPlayer.Advance | components/sections/MusicPlayer.tsx:58-64 | the counter moves to next iff it has reached the duration, then returns to 0. Otherwise it increments |
| MusicPlayer.AdvanceStaysWithin | components/sections/MusicPlayer.tsx:58-64 | a counter within the track stays within it |
| MusicPlayer.FormatTrackTimeReadsBack | components/sections/MusicPlayer.tsx:73-77 | the display of a non-negative time reads back as the same seconds |
| MusicPlayer.FormatTrackTimeLayout | components/sections/MusicPlayer.tsx:73-77 | the display is the unpadded minutes, a colon and two second digits |
| MusicPlayer.DurationsPositive | components/sections/MusicPlayer.tsx:28-38 | every track has a positive duration |
| MusicPlayer.ConsistentTrackIsKnown | components/sections/MusicPlayer.tsx:49-50 | a current track in its playlist is found in the table, with a positive duration |
| MusicPlayer.ProgressBounded | components/sections/MusicPlayer.tsx:138 | within a track the progress is 0 to 100, and 100 iff at the end |
| MusicPlayer.SeekTime | components/sections/MusicPlayer.tsx:227-233 | a click seeks to the floor of fraction·duration, within the track |
| MusicPlayer.VolumeReadsBack | components/sections/MusicPlayer.tsx:110-115 | the stored volume times 100 is the slider's value, and only the volume changes |
| MusicPlayer.Player.constructor | components/sections/MusicPlayer.tsx:42-44 | counter 0, shuffle and repeat off |
| MusicPlayer.Player.PlayPause | components/sections/MusicPlayer.tsx:79-84 | the playing flag is flipped through SET_MUSIC |
| MusicPlayer.Player.Next | components/sections/MusicPlayer.tsx:86-97 | the next track is dispatched with the current shuffle flag, and the counter reset |
| MusicPlayer.Player.Previous | components/sections/MusicPlayer.tsx:99-108 | the previous track is dispatched and the counter reset. Where the handler throws, nothing changes |
| MusicPlayer.Player.VolumeChange | components/sections/MusicPlayer.tsx:110-115 | the scaled volume is dispatched |
| MusicPlayer.Player.PlaylistChange | components/sections/MusicPlayer.tsx:117-128 | the playlist change is dispatched and the counter reset |
| MusicPlayer.Player.TrackSelect | components/sections/MusicPlayer.tsx:130-136 | the selection is dispatched and the counter reset |
| MusicPlayer.Player.Seek | components/sections/MusicPlayer.tsx:227-233 | the counter takes the seek time |
| MusicPlayer.Player.ToggleShuffle | components/sections/MusicPlayer.tsx:247 | shuffle flips |
| MusicPlayer.Player.ToggleRepeat | components/sections/MusicPlayer.tsx:289 | repeat flips |
| MusicPlayer.Player.Second | components/sections/MusicPlayer.tsx:53-71 | one interval step: the counter advances, and at the duration it resets and the next track is dispatched |
| Notes.WordCountIsRuns | components/sections/MyNotes.tsx:86 | the word count equals an independent count of the maximal runs of non-space characters |
| Notes.WordCountBounds | components/sections/MyNotes.tsx:86-87 | words never exceed characters, and there are no words iff the notes are blank |
| Text.Utf16Length | components/sections/MyNotes.tsx:87 | the character count is the number of UTF-16 code units: between the number of characters and twice that, and equal to it iff no character is above U+FFFF |
| Notes.CharCountExample | components/sections/MyNotes.tsx:87 | a character outside the Basic Multilingual Plane counts as two |
| Notes.DownloadFile | components/sections/MyNotes.tsx:50-65 | nothing is offered iff the notes are blank. Otherwise the file holds the notes verbatim |
| Notes.DownloadNamedByDate | components/sections/MyNotes.tsx:60 | the file is named after the date part of the ISO timestamp |
| Notes.SyncedNeverNeedsSaving | components/sections/MyNotes.tsx:25-37 | with storage holding the saved state, the auto-save check never finds unsaved notes |
| Notes.LastSavedBands | components/sections/MyNotes.tsx:75-84 | the four caption bands: never saved, under a minute, 1 to 59 minutes ago, or the clock time |
| Notes.LastSavedMinutesReadBack | components/sections/MyNotes.tsx:79-82 | the minutes in the caption read back as the elapsed whole minutes |
| Notes.Editor.constructor | components/sections/MyNotes.tsx:20-21 | never saved, not saving |
| Notes.Editor.Change | components/sections/MyNotes.tsx:39-41 | SET_NOTES with the new text is dispatched |
| Notes.Editor.ClearAll | components/sections/MyNotes.tsx:43-48 | clears iff the notes are not blank and the user confirmed. It then sets the notes to "" and stamps the save time; otherwise nothing changes |
| Notes.Editor.AutoSaveFired | components/sections/MyNotes.tsx:26-28 | the indicator comes on iff the notes differ from the stored copy |
| Notes.Editor.SavingFinished | components/sections/MyNotes.tsx:29-32 | the indicator goes off and the save time is stamped |
| Notes.Editor.AutoSaveWhenSynced | components/sections/MyNotes.tsx:25-37 | with storage synced, the auto-save check leaves the indicator as it was, so it never comes on |
| BmiCalculator.CalculateAction | components/sections/BMICalculator.tsx:20-32 | UPDATE_BMI with the two numbers is dispatched iff both inputs are non-empty |
| BmiCalculator.AcceptedFormIsAdmissible | components/sections/BMICalculator.tsx:140-167 | every form that passes the inputs' constraints dispatches a non-zero height |
| BmiCalculator.GuardAloneAdmitsZeroHeight | components/sections/BMICalculator.tsx:22 | the `height && weight` guard alone would pass height 0; the input's minimum stops it |
| BmiCalculator.InitialField | components/sections/BMICalculator.tsx:16-17 | a stored 0 shows as an empty input, and any other value as itself |
| BmiCalculator.MeasurementReopens | components/sections/BMICalculator.tsx:16-17 | after a calculation, the inputs reopen with the submitted numbers |
| BmiCalculator.ColorFollowsCategory | components/sections/BMICalculator.tsx:34-40 | on the same non-zero value, the colour bands and the category bands agree |
| BmiCalculator.DisplayedColorDisagrees | components/sections/BMICalculator.tsx:271-272 | 200 cm / 99.9 kg passes the form and is Normal, yet the category is shown in yellow |
| BmiCalculator.ResultColorMatchesCategory | components/sections/BMICalculator.tsx:271-272 | with the colour taken from the category, every measurement's category shows in its own colour, which is getBMIColor of the unrounded value |
| BmiCalculator.DisplayedColorAgreesAwayFromBoundaries | components/sections/BMICalculator.tsx:232 | outside the tenth below each boundary, the colour as written already matches the category |
| BmiCalculator.GradientsDistinct | components/sections/BMICalculator.tsx:42-55 | two categories, or none, share a gradient iff they are equal |
| BmiCalculator.FindTips | components/sections/BMICalculator.tsx:96 | no category gives no tips. Non-empty tips come from a table entry for that category |
| BmiCalculator.TipsPerCategory | components/sections/BMICalculator.tsx:57-96 | each category shows its own entry's four tips; no category shows none |
| BmiCalculator.BarWidth | components/sections/BMICalculator.tsx:286 | the width never exceeds 100, and is 100 iff the result is at least 35 |
| BmiCalculator.BarWidthMonotone | components/sections/BMICalculator.tsx:286 | a larger result never gives a shorter bar |
| BmiCalculator.JsRound | components/sections/BMICalculator.tsx:227 | the nearest integer, halves up |
| BmiCalculator.IdealRangeOrdered | components/sections/BMICalculator.tsx:227 | the lower ideal weight never exceeds the upper one |
| BmiCalculator.IdealRangeExample | components/sections/BMICalculator.tsx:227 | 170 cm gives 53 - 72 kg, and an empty input gives no range |
| BmiCalculator.Calculator.constructor | components/sections/BMICalculator.tsx:16-18 | the inputs show the stored numbers, and the result is hidden |
| BmiCalculator.Calculator.SetHeight | components/sections/BMICalculator.tsx:143 | the height input holds the entry |
| BmiCalculator.Calculator.SetWeight | components/sections/BMICalculator.tsx:160 | the weight input holds the entry |
| BmiCalculator.Calculator.Calculate | components/sections/BMICalculator.tsx:20-32 | an accepted form dispatches UPDATE_BMI with its numbers and shows the result. The result card shows iff the stored result is not 0 |
| BmiCalculator.Calculator.CloseResult | components/sections/BMICalculator.tsx:334 | the result is hidden, so the result card is not shown |

## Left out

- Storage and JSON: reading and writing browser storage and `JSON.parse`/`JSON.stringify` are not modelled.
  - The stored record is taken to read back exactly.
  - An unreadable record is the `None` argument of `Provider.Store.constructor`.
- Scheduling: `setInterval` and `setTimeout` are not modelled. Each callback body is a method (`IntervalFired`, `RunEffects`, `Second`, `AutoSaveFired`, `SavingFinished`, `RefreshGreeting`), and the order in which they fire is left to the caller.
- Clock and randomness: `Date.now()`, `new Date()` and `Math.random()` are parameters (`now`, `hour`, `roll`).
  - ADD_TASK reads `Date.now()` twice (components/providers/AppProvider.tsx:99-100). The model uses one reading for both the id and the creation time.
- Floating point is not modelled. BMI, rounding, the ideal range, the volume and the progress percentage use exact reals, so floating-point error near a rounding tie is not captured.
- BmiCalculator.IdealRangeOrdered: does not prove that the two ends correspond to BMI 18.5 and 24.9 for every height. It proves only that they are ordered, plus one worked example.
- Locale text: `toLocaleTimeString` and `toISOString` are library formatting. The clock text and the ISO timestamp are parameters of `Notes.LastSavedText` and `Notes.DownloadFile`.
- Number display: how the BMI result and the greeting are rendered as text is not modelled.
- DOM side effects are not modelled: `window.confirm` (its answer is the `confirmed` parameter), `alert`, and the Blob/URL download mechanics.
- Browser form validation: the inputs' `required`/`min`/`max`/`step` constraints are the precondition `FormAccepts` of `BmiCalculator.Calculator.Calculate`, not executable code.
  - The reducer demands a non-zero height (`Reducer.Admissible`), because it divides by it.
- Pomodoro.PomodoroTimer.SetCustomDuration: minutes are whole numbers. `Number(e.target.value)` also accepts a fraction such as 1.5 (90 s), and the integer model does not capture that.
- Pomodoro.PomodoroTimer.StartCustom: dispatches whole minutes times 60 only, because fractional minutes are not modelled (see `SetCustomDuration`).
- Stale closures: in the music interval, React would run `handleNext` from the render that scheduled the interval. The model uses the current shuffle flag and state.
- `isRepeatOn` is toggled but read nowhere else, so it has no effect in the model either.
- The reducer's `default` branch is not modelled: the action datatype is closed, so an unknown action type cannot occur.
- A task patch cannot set `priority` back to undefined: an absent patch field keeps the old value. The task manager never sends `priority`.
- Not modelled because they are presentational: fullscreen and settings toggles, animations, and the remaining presentational files (dashboard, sidebar, layout, theme switchers, hero section, daily focus, credits).
  - The pomodoro progress ring and the hard-coded statistics are also left out.

## Findings

| source | as written | input that shows it | evidently intended | confidence | as-written member | corrected member |
|---|---|---|---|---|---|---|
| components/sections/BMICalculator.tsx:271-272 | the category text is coloured by `getBMIColor(state.bmi.result)`, on the result rounded to one decimal, while the category comes from the unrounded value (components/providers/AppProvider.tsx:186-196) | height 200 cm, weight 99.9 kg (accepted by the form): BMI 24.975, category Normal, result 25.0, colour yellow (Overweight) | the category is shown in its own colour (green for Normal) | not executed | BmiCalculator.DisplayedColorDisagrees | BmiCalculator.ResultColorMatchesCategory |
