# Self-tracking dashboard: a Dafny model of its page logic

The dashboard is a set of React pages that keep their data in the browser's
`localStorage`. The pages are workouts and a stopwatch, macros and diet, a
to-do list and water intake. A home page reads every page's record back and
shows a summary with donut charts. This project models the logic under the
rendering:

- **Storage.** `Storage.Store` is a map from the seven storage keys to what
  is stored under each: JSON text (`Json(v)`) or text that does not parse
  (`NotJson(s)`). A missing or empty item is the `|| default` case every
  reader applies. `JSON.parse` failures and thrown exceptions are `None`.
- **JavaScript values and numbers.** JSON values are the datatype
  `JsValue.Value`. A number is a `real` and NaN is `None`. `Math.round` is
  `Floor(x + 1/2)`. `Number(text)` is a decimal parser (`JsString.NumberOfString`).
  `x || d` is `JsValue.NumberOr`.
- **Home summary (`HomeStats`).** `loadStats` is modelled as
  `RawOf` (the storage reads), then `InputsOf` (the property reads that can
  throw), then `Summarise` (the arithmetic). An exception anywhere gives the
  all-zero snapshot. The lemmas say which failures are isolated and which
  zero the whole snapshot.
- **Donut chart (`DonutChart`).** `PieChart` is a fold that appends one
  sector per category and advances a running angle. It is the method
  `Render` with a loop and its invariants. Angles, sweeps, the large-arc
  flag, colours and radii are modelled. The SVG path text is not.
- **Pages.** A page whose state lives only in storage (to-dos, water) is
  a class holding the `Store`. A page with React state (workouts, macros)
  is a class with that state as fields, plus the `Store` it writes to.
  Each action is a method whose `ensures` gives the whole new state.
  Lemmas relate the actions to each other: add then delete, toggle twice,
  add then remove.
- **Cross-page (`Dashboard`).** What a page writes is what the home summary
  reads. After the exercise page saves, the summary counts the saved list
  against the saved target. After the macros page saves, it shows the
  page's own calorie percentage. A submitted to-do is one more open item.
  The water page and the summary agree on intake and progress. Each of
  these holds when the summary does not fall into its outer `catch`,
  which would show zeros instead.

Only two readings in the summary have their own `catch`: the to-do list
(`src/pages/Home.jsx:83-88`) and the settings (`src/pages/Home.jsx:95-97`). An
unparsable workouts or macros item, a `null` macros record, a `null` to-do
item or a `null` settings record reaches the outer `catch` and zeroes the
whole snapshot
(`HomeStats.WorkoutsFailureZeroesAll`, `HomeStats.AggregateFailsIff`).

## Model

| member | source | states |
|---|---|---|
| JsMath.Round | src/pages/MacrosPage.jsx:94 | `Math.round`: the result is within half a unit of `x`, halves rounding up |
| JsMath.RoundMonotone | src/pages/Home.jsx:104 | rounding preserves order |
| JsMath.PercentOfShare | src/pages/Home.jsx:105 | a rounded share of a positive whole lies in [0, 100] |
| JsMath.PercentNonNegative | src/pages/MacrosPage.jsx:94 | a non-negative part of a positive whole gives a non-negative percentage |
| JsMath.PercentOfMore | src/pages/Home.jsx:108 | a part at least the whole gives at least 100 percent |
| JsMath.PercentOfWhole | src/pages/MacrosPage.jsx:91-95 | the whole is exactly 100 percent of itself |
| JsString.Trim | src/pages/TodoPage.jsx:51 | `trim()`: the input is white space, then the result, then white space; the result neither starts nor ends with white space |
| JsString.TrimEmptyIff | src/pages/TodoPage.jsx:51-52 | the trimmed text is empty if and only if the input is all white space |
| JsString.TrimIdempotent | src/pages/TodoPage.jsx:9 | trimming already-trimmed text changes nothing |
| JsString.NumberOfString | src/pages/Exercise.jsx:70-71 | `Number(text)`: blank text converts to 0 |
| JsString.TrimNoSpace | src/pages/Exercise.jsx:69 | text with no white space at either end is its own trim |
| JsString.DigitsNumber | src/pages/Exercise.jsx:70-71 | `Number` of a run of digits is the value they spell |
| JsString.NegatedDigitsNumber | src/pages/Exercise.jsx:70-71 | `Number` of a minus sign then digits is the negated value |
| JsString.ShowNatNumber | src/pages/WaterPage.jsx:11-12 | `Number(String(n))` gives back `n` |
| JsString.ShowNat | src/pages/Exercise.jsx:15 | `String(n)`: decimal digits whose value is `n`, one digit below 10, at most two below 100 |
| JsString.PadStart2 | src/pages/Exercise.jsx:15 | `padStart(2, '0')`: at least two characters, the text at the end, zeros before it |
| JsString.DigitsValueLeadingZeros | src/pages/Exercise.jsx:15 | leading zeros do not change the value of a digit string |
| JsValue.Property | src/pages/Home.jsx:80 | reading a property throws exactly on `null`/`undefined`; otherwise it is the field or `undefined` |
| JsValue.ToNumber | src/pages/Home.jsx:98 | `Number(v)`: a number converts to itself; `undefined` and objects to NaN |
| JsValue.NumberOr | src/pages/Home.jsx:98 | `x \|\| d`: a non-zero number is kept; NaN and 0 give the default |
| JsValue.NumberOrNonZero | src/pages/Exercise.jsx:124-126 | with a non-zero default, `Number(x) \|\| d` is never 0 |
| Storage.Read | src/pages/Home.jsx:78 | `getItem(key) \|\| ...`: an item is read only when it is present and not the empty text |
| Storage.Parse | src/pages/Home.jsx:78 | `JSON.parse`: a missing item gives the default; it throws exactly on an item that is not JSON |
| Storage.NumberAt | src/pages/WaterPage.jsx:6 | `Number(getItem(key) \|\| '0')`: a missing item reads 0, a stored number reads as itself |
| Storage.ParseWritten | src/pages/Exercise.jsx:77 | parsing what was just written gives back the written value |
| Storage.OtherReadsKept | src/pages/WaterPage.jsx:12 | writing one key leaves every other key's reading unchanged |
| Storage.NumberRoundTrip | src/pages/WaterPage.jsx:11-12 | a number stored under a key reads back as itself through `Number(...) \|\| 0` |
| Lists.Take | src/pages/Home.jsx:110-112 | `slice(0, n)`: the first `min(n, len)` items, in order |
| Lists.Filter | src/pages/TodoPage.jsx:29 | `filter`: every kept item passes the test and comes from the input, and every input item that passes is kept |
| Lists.FilterConcat | src/pages/TodoPage.jsx:29 | filtering keeps relative order: it splits over concatenation |
| Lists.FilterKeepsAll | src/pages/Exercise.jsx:81 | filtering a list whose items all pass returns it unchanged |
| Lists.FilterIdempotent | src/pages/TodoPage.jsx:29 | deleting by the same id twice is deleting once |
| Records.Without | src/pages/TodoPage.jsx:29 | delete by id: throws exactly when an item is nullish; otherwise no item with the id remains, and all others remain in order |
| Records.PrependThenWithout | src/pages/TodoPage.jsx:26-34 | deleting the id of an item just put at the head gives back the list it was added to |
| DonutChart.Clamped | src/pages/Home.jsx:5 | `Math.max(0, v)`: non-negative, at least `v`, `v` itself when `v` is non-negative and 0 when it is negative |
| DonutChart.Total | src/pages/Home.jsx:5 | the chart total is never negative |
| DonutChart.TotalBounds | src/pages/Home.jsx:5 | every clamped value lies between 0 and the total |
| DonutChart.StartDegStep | src/pages/Home.jsx:41 | each sector starts where the previous one ended |
| DonutChart.WholeRing | src/pages/Home.jsx:22-45 | all the categories together take 360 degrees, so the sweep ends at 270 degrees |
| DonutChart.MakeSegment | src/pages/Home.jsx:24-40 | the sweep is the clamped value's share of 360 degrees and never negative; a value of 0 or less sweeps 0. The end is start plus sweep. The large-arc flag is 1 exactly when the sweep exceeds 180. A missing colour becomes `#ccc`. The radii are `size/2` and 0.6 of that |
| DonutChart.PlacedStep | src/pages/Home.jsx:40 | the loop step appends the sector for the next category |
| DonutChart.JoinedStep | src/pages/Home.jsx:41 | the loop step keeps the sectors joined end to end from -90 degrees, with their sweeps adding up |
| DonutChart.ThreeToOne | src/pages/Home.jsx:22-45 | two categories weighing 3 and 1 give two sectors: 270 degrees from -90, then 90 degrees from 180 |
| DonutChart.Render | src/pages/Home.jsx:4-56 | a single full ring exactly when the total is 0, coloured by the first category or `#e0e0e0`. Otherwise one sector per category in input order: the first starts at -90 degrees, each starts where the previous ended, the last ends at 270 and the sweeps sum to 360 |
| HomeStats.ExercisesPct | src/pages/Home.jsx:104 | the exercise percentage lies in [0, 100] |
| HomeStats.MacrosPct | src/pages/Home.jsx:100-102 | the calorie percentage is 0 without a target and non-negative for non-negative intake; it has no upper cap |
| HomeStats.WaterPct | src/pages/Home.jsx:107-108 | the water percentage is at most 100, 0 without a goal, and non-negative for a positive goal and a non-negative intake |
| HomeStats.TodosPct | src/pages/Home.jsx:105 | the to-do percentage lies in [0, 100]: 0 for an empty list, 100 when all are done |
| HomeStats.Recent | src/pages/Home.jsx:110-111 | a recent list is the first `min(5, len)` items of an array, and empty for a non-array |
| HomeStats.CountDone | src/pages/Home.jsx:90 | counting done to-dos throws exactly when an item is nullish; otherwise it is the number of items whose `done` is truthy |
| HomeStats.InputsOf | src/pages/Home.jsx:77-112 | the values read for the summary keep the to-do list, whose done count is at most its length |
| HomeStats.ReadInputs | src/pages/Home.jsx:77-112 | the reads from a store: the done count never exceeds the to-do count |
| HomeStats.Summarise | src/pages/Home.jsx:89-129 | every computed snapshot is coherent: bounded percentages, done plus remaining equals the count, recent lists of at most 5 |
| HomeStats.LoadStats | src/pages/Home.jsx:76-133 | `loadStats` always produces a coherent snapshot, with a non-negative water percentage for a positive goal and a non-negative intake |
| HomeStats.SnapshotFromLists | src/pages/Home.jsx:110-128 | counts are the stored lists' lengths; recent lists are their first five items; the done count is the number of done items |
| HomeStats.AggregateFailsIff | src/pages/Home.jsx:130-131 | the summary throws exactly under the listed conditions, and then the snapshot is all zeros |
| HomeStats.SameReadsSameStats | src/pages/Home.jsx:83-97 | a to-do or settings item that reads the same as another gives the same summary |
| HomeStats.TodosFailureIsolated | src/pages/Home.jsx:83-88 | an unparsable to-do item gives the same summary as a missing one |
| HomeStats.SettingsFailureIsolated | src/pages/Home.jsx:95-98 | an unparsable settings item gives the same summary as a missing one |
| HomeStats.WorkoutsFailureZeroesAll | src/pages/Home.jsx:78 | an unparsable workouts item zeroes the whole snapshot |
| HomeStats.TodoPieData | src/pages/Home.jsx:187-189 | the to-do pie has two slices: Done (`#50e3c2`) is the done count; Remaining (`#f5a623`) is the remaining count, 1 when there are no to-dos and 0 when all are done |
| HomeStats.TodoPieNeverDegenerate | src/pages/Home.jsx:187-189 | for every summary snapshot the to-do pie's total is positive, so it never falls back to the full ring |
| HomeStats.CompletedPctIsTodosPct | src/pages/Home.jsx:194-195 | the "Completed" figure under the pie equals the snapshot's to-do percentage |
| HomeStats.Examples | src/pages/Home.jsx:102-108 | worked values: 3 of 5 workouts is 60, 2500 of 2000 ml is 100, 2 of 5 to-dos is 40, and calories have no cap |
| Dashboard.WorkoutsWriteReads | src/pages/Exercise.jsx:77 | saving workouts and settings changes only those two readings of the summary |
| HomeStats.ExercisesTargetFallback | src/pages/Home.jsx:98-104 | a settings target that converts to NaN or 0 falls back to 5: the workout percentage is taken against 5 |
| HomeStats.UnsavedSettingsTargetFive | src/pages/Home.jsx:95-104 | with no settings item, or one that is not JSON, the workout percentage is taken against 5 |
| Dashboard.WorkoutsFeedHome | src/pages/Home.jsx:104 | after the exercise page saves, and when the summary of the saved store does not fail, the summary counts the saved list against the saved target and lists its first five |
| Dashboard.SavedMacrosReads | src/pages/Home.jsx:100-101 | the summary reads the macros page's calories and entries from the saved record |
| Dashboard.SamePercentage | src/pages/Home.jsx:102 | the summary's calorie percentage is the macros page's `pct` |
| Dashboard.MacrosWriteReads | src/pages/MacrosPage.jsx:34 | saving the macros record changes only the summary's macros reading |
| Dashboard.MacrosFeedHome | src/pages/Home.jsx:79-80 | after the macros page saves, and when the summary of the saved store does not fail, the summary counts its entries and shows the page's calorie percentage |
| Dashboard.TodosWriteReads | src/pages/TodoPage.jsx:10 | saving the to-do list changes only the summary's to-do reading |
| Dashboard.PrependTodoInputs | src/pages/Home.jsx:90 | prepending a not-done item to a readable list keeps the done count |
| Dashboard.SubmittedTodoReachesHome | src/pages/Home.jsx:83-91 | when the summary does not fail and the list is readable, a submitted to-do is one more item and heads the recent list; the done count is unchanged |
| Dashboard.WaterAgreesWithHome | src/pages/Home.jsx:107-108 | with a non-negative goal, and when the summary itself does not fail, the summary shows the water page's intake and progress |
| TodoPage.NewTodo | src/pages/TodoPage.jsx:9 | the new to-do carries the id and the text and is not done |
| TodoPage.TodoListWritten | src/pages/TodoPage.jsx:8-10 | the list just written reads back as itself |
| TodoPage.Flip | src/pages/TodoPage.jsx:19 | `{...it, done: !it.done}`: the same keys plus `done`, `done` negated, the other fields unchanged |
| TodoPage.Toggled | src/pages/TodoPage.jsx:19 | toggling throws exactly on a nullish item; otherwise the length is kept, non-matching items are unchanged and each matching item is replaced by its flipped copy |
| TodoPage.ToggleTwice | src/pages/TodoPage.jsx:16-24 | toggling the same id twice restores the list |
| TodoPage.SubmitThenDelete | src/pages/TodoPage.jsx:26-34 | deleting a just-submitted to-do restores the list |
| TodoPage.TodoPanel.constructor | src/pages/TodoPage.jsx:3-4 | the page starts on the given storage |
| TodoPage.TodoPanel.SubmitQuickTodo | src/pages/TodoPage.jsx:6-14 | one not-done item with the trimmed text is prepended and the rest keep their order; nothing is written when the item is not an array |
| TodoPage.TodoPanel.ToggleTodoDone | src/pages/TodoPage.jsx:16-24 | the toggled list is written; nothing is written when reading or mapping throws |
| TodoPage.TodoPanel.DeleteTodo | src/pages/TodoPage.jsx:26-34 | the list without that id is written, the others in order; nothing is written when reading or filtering throws |
| TodoPage.TodoPanel.ClearAllTodos | src/pages/TodoPage.jsx:36-40 | once confirmed, the list reads as empty; otherwise nothing changes |
| TodoPage.TodoPanel.SubmitForm | src/pages/TodoPage.jsx:47-55 | a to-do is submitted exactly when the input is not all white space; the stored list then gets the trimmed to-do at its head and nothing else changes; an unreadable list leaves the store unchanged |
| WaterPage.GoalOf | src/pages/WaterPage.jsx:28-29 | the goal is never negative: a non-negative number is kept, and blank or non-numeric text becomes 0 |
| WaterPage.CustomAmount | src/pages/WaterPage.jsx:139 | `Number(input) \|\| 0`: the typed number, or 0 for blank or non-numeric text |
| WaterPage.Progress | src/pages/WaterPage.jsx:63-65 | the progress is at most 100: 0 without a goal, non-negative for non-negative intake, and 100 once the goal is met |
| WaterPage.WaterPanel.constructor | src/pages/WaterPage.jsx:3-4 | the page starts on the given storage |
| WaterPage.WaterPanel.ProgressPct | src/pages/WaterPage.jsx:63-65 | the bar shows at most 100 percent, and 0 when the goal is not positive |
| WaterPage.WaterPanel.AddWaterAmount | src/pages/WaterPage.jsx:10-14 | the intake grows by exactly the amount; the goal is unchanged |
| WaterPage.WaterPanel.RemoveWaterAmount | src/pages/WaterPage.jsx:16-20 | the intake becomes `max(0, cur - amount)`, never negative; the goal is unchanged |
| WaterPage.WaterPanel.ResetWaterAmount | src/pages/WaterPage.jsx:22-25 | the intake and the progress read 0; the goal is kept |
| WaterPage.WaterPanel.SetWaterGoal | src/pages/WaterPage.jsx:27-31 | the stored goal is `max(0, Number(val) \|\| 0)`; the intake is unchanged |
| WaterPage.WaterPanel.AddIfPositive | src/pages/WaterPage.jsx:139 | `if (amt > 0) addWaterAmount(amt)`: adds exactly when the amount is positive, and then only the intake item changes |
| WaterPage.WaterPanel.AddCustomAmount | src/pages/WaterPage.jsx:139 | adds exactly when the typed amount is positive: only the intake item changes, to the old intake plus the amount; a non-negative intake stays non-negative |
| WaterPage.AddThenRemove | src/pages/WaterPage.jsx:10-20 | removing what was just added restores a non-negative intake |
| Exercise.NumberOrDefault | src/pages/Exercise.jsx:70-71 | `Number(text) \|\| d`: the number when it is non-zero, else the default; never 0 |
| Exercise.WorkoutRecord | src/pages/Exercise.jsx:67-74 | the saved record carries the id, name, sets, reps and weight given |
| Exercise.NewWorkout | src/pages/Exercise.jsx:66-74 | a new workout has the trimmed name and weight; sets and reps default to 3 and 8 |
| Exercise.StoredWorkouts | src/pages/Exercise.jsx:40-41 | a missing, unparsable or non-array item loads as `[]`; a stored array loads as its items |
| Exercise.WorkoutsRoundTrip | src/pages/Exercise.jsx:38-45 | loading what was saved gives back the saved list |
| Exercise.SettingsFromForm | src/pages/Exercise.jsx:122-127 | dark mode is on exactly for `on`. A missing, blank, zero or non-numeric weight or target takes 400 or 5; otherwise it is the number. A missing or empty font is Arial |
| Exercise.FieldNumber | src/pages/Exercise.jsx:124 | a missing form field is `null`, which converts to 0 |
| Exercise.SettingsValue | src/pages/Exercise.jsx:94 | the saved settings record carries the exercise target |
| Exercise.MinutesText | src/pages/Exercise.jsx:13-15 | the minutes field has at least two characters |
| Exercise.SecondsText | src/pages/Exercise.jsx:14-15 | the seconds field has exactly two characters |
| Exercise.TimerDisplay | src/pages/Exercise.jsx:15 | the display ends in `:ss` |
| Exercise.PaddedValue | src/pages/Exercise.jsx:15 | a zero-padded field is all digits and reads back as its number |
| Exercise.TimerDisplayRoundTrip | src/pages/Exercise.jsx:13-15 | the two fields read back as `m` and `s` with `s < 60` and `m * 60 + s` equal to the seconds |
| Exercise.ExercisePanel.constructor | src/pages/Exercise.jsx:33-36 | the initial state: no workouts, the stopwatch stopped at 0, the default settings |
| Exercise.ExercisePanel.LoadWorkouts | src/pages/Exercise.jsx:38-45 | the list becomes the stored array, or `[]` |
| Exercise.ExercisePanel.AddWorkout | src/pages/Exercise.jsx:66-78 | one new workout is prepended and the rest keep their order; the saved list loads back as the new list |
| Exercise.ExercisePanel.DeleteWorkout | src/pages/Exercise.jsx:80-84 | exactly the workouts with that id are removed, the others in order, and saved; a nullish item throws and changes nothing |
| Exercise.ExercisePanel.ClearAllWorkouts | src/pages/Exercise.jsx:86-90 | once confirmed, the list and the stored item are empty; otherwise nothing changes |
| Exercise.ExercisePanel.SubmitWorkoutForm | src/pages/Exercise.jsx:164-174 | a workout is added exactly when the name is not all white space; it then heads the list and the list is written to its storage item, with nothing else changed |
| Exercise.ExercisePanel.SaveSettings | src/pages/Exercise.jsx:92-95 | the settings become current and are saved |
| Exercise.ExercisePanel.SubmitSettingsForm | src/pages/Exercise.jsx:119-128 | the saved settings are the form's fields with their defaults |
| Exercise.ExercisePanel.StartTimer | src/pages/Exercise.jsx:105 | the stopwatch runs |
| Exercise.ExercisePanel.PauseTimer | src/pages/Exercise.jsx:106 | the stopwatch stops |
| Exercise.ExercisePanel.ResetTimer | src/pages/Exercise.jsx:107 | the stopwatch stops at 0 seconds |
| Exercise.ExercisePanel.Tick | src/pages/Exercise.jsx:108 | one tick adds exactly one second |
| Exercise.AddThenDelete | src/pages/Exercise.jsx:66-84 | deleting a just-added workout restores the list |
| Macros.Plus | src/pages/MacrosPage.jsx:60-65 | each of today's totals grows by exactly the entry's quantity |
| Macros.SumConcat | src/pages/MacrosPage.jsx:74-82 | the recomputed totals split over concatenation |
| Macros.SumPrepend | src/pages/MacrosPage.jsx:74-82 | the sum of a list with a new head is the old sum plus the head |
| Macros.TargetOf | src/pages/MacrosPage.jsx:38-41 | `''` and NaN give the blank target; otherwise the number |
| Macros.WithTarget | src/pages/MacrosPage.jsx:39-42 | only the named target field changes |
| Macros.Pct | src/pages/MacrosPage.jsx:91-95 | 0 for a zero or blank target, non-negative for non-negative intake, at most 100 up to the target, exactly 100 at the target |
| Macros.NewEntry | src/pages/MacrosPage.jsx:48-56 | the entry has the given id and time and the trimmed note; each quantity is `Number(text) \|\| 0`, so blank or non-numeric quantities count 0 |
| Macros.Prepended | src/pages/MacrosPage.jsx:66 | the new entry is at the head, the list is at most 50 long, and the rest are the old entries in order, the oldest dropped at the cap |
| Macros.PrependKeepsSum | src/pages/MacrosPage.jsx:58-67 | below the cap, adding an entry keeps today's totals equal to the sum of the entries |
| Macros.TruncationKeepsDroppedTotals | src/pages/MacrosPage.jsx:60-66 | at the cap, today's totals still count the entry the cut drops |
| Macros.TargetsRoundTrip | src/pages/MacrosPage.jsx:34 | saved targets load back unchanged |
| Macros.TotalsRoundTrip | src/pages/MacrosPage.jsx:34 | saved totals load back unchanged |
| Macros.EntryRoundTrip | src/pages/MacrosPage.jsx:34 | a saved entry loads back unchanged |
| Macros.EntriesRoundTrip | src/pages/MacrosPage.jsx:34 | a saved entry list loads back unchanged |
| Macros.StateValue | src/pages/MacrosPage.jsx:34 | the saved record holds the target, the totals and the entries |
| Macros.SavedRoundTrip | src/pages/MacrosPage.jsx:12-19 | the saved record loads back as its three parts |
| Macros.Loaded | src/pages/MacrosPage.jsx:15-19 | a saved record's parts replace the current ones, a falsy part keeping the current one; without a record the state is kept |
| Macros.NonArrayEntriesLoadEmpty | src/pages/MacrosPage.jsx:18 | a saved record whose `entries` is not an array loads with no entries |
| Macros.MountRestoresSaved | src/pages/MacrosPage.jsx:10-24 | loading before saving restores every state the page saved |
| Macros.MountAsWrittenDiscardsSaved | src/pages/MacrosPage.jsx:26-35 | as written, every mount comes up with the defaults |
| Macros.MountAsWrittenLosesEntry | src/pages/MacrosPage.jsx:26-35 | a saved day with one entry is lost on mount |
| Macros.MacrosPanel.Mount | src/pages/MacrosPage.jsx:10-31 | load first, then save: the state is what was saved |
| Macros.MacrosPanel.MountAsWritten | src/pages/MacrosPage.jsx:26-35 | as written: the defaults are saved over the record before it loads |
| Macros.MacrosPanel.Save | src/pages/MacrosPage.jsx:33-35 | the whole state is written to `macros_v1` |
| Macros.MacrosPanel.UpdateTarget | src/pages/MacrosPage.jsx:37-43 | only the named target changes, and the state is saved |
| Macros.MacrosPanel.AddEntry | src/pages/MacrosPage.jsx:45-69 | the entry heads the capped list and is added to today's totals; below the cap the totals stay the sum of the entries |
| Macros.MacrosPanel.DeleteEntry | src/pages/MacrosPage.jsx:71-85 | the entries with the id are removed, the totals become the sum of the rest, and the targets are kept |
| Macros.MacrosPanel.ResetToday | src/pages/MacrosPage.jsx:87-89 | the totals are zero and the list is empty; the targets are kept |
| Macros.AddThenDelete | src/pages/MacrosPage.jsx:45-85 | deleting a just-added entry restores the list and its sum |

## Left out

- The SVG path text and the `Math.cos`/`Math.sin` corner points of each sector (`src/pages/Home.jsx:11`, `src/pages/Home.jsx:28-39`) are not modelled. These are floating-point trigonometry and string formatting; sectors are modelled by angles, sweep, large-arc flag, colour and radii.
- JSX rendering, inline styles, the font map and dark-mode colours only affect presentation.
- `setTimeout`, `setInterval`, `clearTimeout` and the `storage` event listeners are event plumbing. `Exercise.ExercisePanel.Tick` is one interval tick. The timer mounts and `LoadWorkouts` are separate calls.
- Exercise.ExercisePanel.Tick: does not require the stopwatch to be running; the interval that calls it exists only while it runs (`src/pages/Exercise.jsx:5-11`).
- The `confirm` dialogs are a `confirmed` parameter. `Date.now()` ids and ISO timestamps are `id` and `createdAt` parameters.
- `setRefresh` re-renders are not modelled, since the to-do and water pages read storage on every render.
- JsString.NumberOfString: models decimal literals with an optional sign, fraction and surrounding white space. Exponents, hexadecimal (`0x`), octal (`0o`) and binary (`0b`) literals and `Infinity` give NaN here, where JavaScript accepts them. Numeric separators (`1_000`) give NaN in both.
- Stored numbers are JSON numbers, not the text `String(x)` writes. `JsString.ShowNatNumber` covers the text round trip for whole numbers.
- JsValue.ToNumber: a one-element array converts to NaN here; JavaScript converts it through its element's text.
- Ids are compared as numbers: `HasId` is false for an item whose `id` is not a number. The pages only ever write numeric ids.
- Macros.SavedOf: a stored record whose target, today or entries have a shape other than the page writes is `Foreign`, and loading keeps the current state. The code would copy the foreign values into the state.
- Macros entries are typed records. The `Number(it.cal) || 0` in `deleteEntry` therefore applies to numbers only, where it is the identity.
- `loadSettings` (`src/pages/Exercise.jsx:47-56`) replaces the settings with whatever JSON is stored, of any shape. The typed settings record cannot hold that, so the model's settings change only through the settings form.
- `setWaterUnit` (`src/pages/WaterPage.jsx:33-36`) stores a display unit that no computation reads.
- `src/App.jsx` (view navigation and its settings fallback) is not part of this model.
- Category values are real numbers. A NaN or `undefined` value would make `Math.max(0, v)` NaN (`src/pages/Home.jsx:5`); the only callers pass numbers.
- Floating-point rounding error is not modelled: quantities are exact reals.
- Macros.MacrosPanel.Progress: the per-quantity bar is `Pct` of today's total against its target; it has no contract of its own beyond `Pct`'s.

## Findings

| source | as written | input that shows it | evidently intended | confidence | as-written member | corrected member |
|---|---|---|---|---|---|---|
| src/pages/MacrosPage.jsx:26-35 | on mount, the `[state]` effect writes the initial state to `macros_v1` before the zero-delay timer runs `loadMacros`. The load then reads back the defaults. | a store holding a saved day with one entry (500 kcal, "lunch") against the default targets: after mounting, the page shows no entries and zero totals | the saved record is loaded first, and only then is the state written back | high, not executed | Macros.MountAsWrittenLosesEntry | Macros.MountRestoresSaved |
