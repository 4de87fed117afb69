# Browser widgets: a Dafny model of their state machines

This project models the logic inside a set of small browser widgets. It does
not model their DOM wiring. Each widget has a pure module and a class:

- The pure module holds the widget's state as a value, one function per
  operation, and lemmas relating the operations.
- The class holds the same state in fields. Its methods follow the source's
  statements and are proved to take exactly the steps the functions describe.

The widgets modelled:

- **To-do list** (`todo-app/oopScript.js`, module `TodoList`): an ordered list
  of `{text, isCompleted, isEditing}` records.
  - Covered: add (trimmed, blanks rejected), delete, toggle, single-record
    edit mode, save/cancel of an edit, and persistence under one storage key.
  - `renderTodos` is modelled as a render plan: one placeholder, or one row
    per record.
- **Calculator** (`calculator/scripts/main.js`, modules `CalculatorEntry` and
  `CalculatorScript`): the display text plus `firstNumber`, `currentOperator`
  and `waitingForSecondNumber`. The arithmetic stays abstract.
  `calculateResult` is told two things: whether the second operand is zero,
  and what text the result prints as.
- **Counter with a game mode**, in two versions:
  - `counter-app/script.js` (modules `CounterRules` and `CounterScript`);
  - `counter-app/modules/counter.js` and `gameMode.js`, with `storage.js`
    folded in (modules `ModularCounter`, `ModularGame` and
    `ModularCounterPage`).

  One interval firing is one tick step. A `confirm` answer is a boolean
  parameter. A click on a disabled or hidden button dispatches no event.
- **Image slider** (`image-slider/main.js`, modules `SliderIndex` and
  `ImageSlider`): the current index with wraparound over the nine images, and
  the strip of slides and its transform.
- **Navigation bar** (`js/universalNavbar.js`, modules `NavbarPaths` and
  `UniversalNavbar`):
  - the base path from the page back to the site root;
  - the brand, home and project links;
  - idempotent insertion of the stylesheet and the bar.
- **Digital clock** (`digital-clock/src/script.js`, modules `ClockFormat` and
  `DigitalClock`): two-digit fields and the `HH:MM:SS` string.

`JsStrings` spells out the JavaScript string operations these rely on:
`trim`, `split` on one character, `filter` of empty parts, `repeat`,
`endsWith`, and the decimal form of an integer.

Three behaviours of the to-do list worth knowing:

- `addTodo` and `saveEditedTodo` perform no duplicate check
  (`TodoList.AddAllowsDuplicates`).
- No handler checks its index. Out-of-range indices are excluded by
  preconditions.
- Malformed stored data makes `JSON.parse` throw; nothing resets the list.
  That case is left out.

## Model

| member | source | states |
|---|---|---|
| `JsStrings.Trim` | todo-app/oopScript.js:48 | `trim` is empty exactly for all-whitespace input; otherwise it is the slice from the first to the last non-whitespace character, with whitespace at neither end |
| `JsStrings.TrimIdempotent` | todo-app/oopScript.js:256 | trimming a trimmed text changes nothing |
| `JsStrings.Split` | js/universalNavbar.js:53 | `split("/")` yields at least one part, and no part contains the separator |
| `JsStrings.JoinSplit` | js/universalNavbar.js:53 | joining the parts of a split with the separator gives back the path: the split loses nothing |
| `JsStrings.NonEmpty` | js/universalNavbar.js:53 | the filter keeps every non-empty part as often as it occurs and drops every empty one, so its length is the number of parts less the empty ones; a single part is kept exactly when it is non-empty |
| `JsStrings.NonEmptyAppend` | js/universalNavbar.js:53 | the filter keeps order: filtering two runs of parts one after the other gives the two filtered runs in the same order |
| `JsStrings.Repeat` | js/universalNavbar.js:56 | `repeat(k)` has k times the length, and each of its k consecutive pieces of the text's length is the text |
| `JsStrings.NatToString` | digital-clock/src/script.js:4 | the template literal's decimal form is all digits, with a leading "0" only for 0, one digit below 10 and two below 100 |
| `JsStrings.ParseNatToString` | digital-clock/src/script.js:4 | reading the decimal form back gives the number |
| `TodoList.Added` | todo-app/oopScript.js:47-61 | a blank input leaves the list unchanged; otherwise exactly one record `{trimmed text, false, false}` is appended and earlier records are kept |
| `TodoList.Deleted` | todo-app/oopScript.js:232-233 | exactly record i is removed; the others keep their order, and the multiset loses just that record |
| `TodoList.Toggled` | todo-app/oopScript.js:240-241 | only record i's completion flag flips |
| `TodoList.EditStarted` | todo-app/oopScript.js:248-250 | record i is the only one in edit mode; texts and completion flags are kept |
| `TodoList.EditSaved` | todo-app/oopScript.js:255-263 | blank text changes nothing; otherwise record i takes the trimmed text and leaves edit mode, and the others are untouched |
| `TodoList.EditCancelled` | todo-app/oopScript.js:271-272 | record i leaves edit mode with its text kept; the others are untouched |
| `TodoList.Loaded` | todo-app/oopScript.js:77-85 | loading yields the stored list, or the empty list when nothing is stored |
| `TodoList.ToggleTwice` | todo-app/oopScript.js:240-241 | toggling twice restores the list |
| `TodoList.EditStartedTwice` | todo-app/oopScript.js:248-250 | starting an edit on j after i is the same as starting it on j alone |
| `TodoList.BlankSaveKeepsEditing` | todo-app/oopScript.js:255-260 | a blank save leaves the record in edit mode |
| `TodoList.AddAllowsDuplicates` | todo-app/oopScript.js:47-61 | adding "Buy milk" and then " Buy milk " appends two equal records |
| `TodoList.UpdatesKeepSingleEdit` | todo-app/oopScript.js:47-272 | add, toggle, save and cancel keep at most one record in edit mode |
| `TodoList.DeleteKeepsSingleEdit` | todo-app/oopScript.js:232-233 | delete keeps at most one record in edit mode |
| `TodoList.EditStartedSingle` | todo-app/oopScript.js:248-250 | after starting an edit, exactly the target is in edit mode |
| `TodoList.RenderPlan` | todo-app/oopScript.js:121-228 | an empty list shows exactly one "no todos" placeholder; otherwise there is one row per record, in order, each with its own index, and a row is in edit form exactly when its record is in edit mode |
| `TodoList.RenderRows` | todo-app/oopScript.js:144-226 | edit rows carry the text in an input with Save and Cancel; other rows carry the text, the completed styling, and toggle/Edit/Delete, with the toggle reading "Undo" exactly when completed |
| `TodoList.RenderAsWritten` | todo-app/oopScript.js:121-141 | as written, rendering an empty list shows the placeholder, and rendering a non-empty list throws with nothing appended |
| `TodoList.RenderAsWrittenLosesRows` | todo-app/oopScript.js:134-141 | for a non-empty list, the as-written render shows no row where the plan shows one per record |
| `TodoList.TodoApp.constructor` | todo-app/oopScript.js:29-31 | construction loads the stored list and renders it |
| `TodoList.TodoApp.SaveTodosToLocalStorage` | todo-app/oopScript.js:72-75 | storage then holds the current list |
| `TodoList.TodoApp.LoadTodosFromLocalStorage` | todo-app/oopScript.js:77-85 | the list becomes `Loaded(stored)` |
| `TodoList.TodoApp.RenderTodos` | todo-app/oopScript.js:121-229 | the clearing and per-record loop leave the list element equal to `RenderPlan(todos)` |
| `TodoList.TodoApp.AddTodo` | todo-app/oopScript.js:47-70 | the list becomes `Added`; on success the input is cleared and the list persisted, and on a blank input nothing else changes |
| `TodoList.TodoApp.DeleteTodo` | todo-app/oopScript.js:232-237 | the list becomes `Deleted` and is persisted |
| `TodoList.TodoApp.ToggleTodo` | todo-app/oopScript.js:240-245 | the list becomes `Toggled` and is persisted |
| `TodoList.TodoApp.StartEditingTodo` | todo-app/oopScript.js:248-252 | the reset loop and the assignment give `EditStarted`; nothing is persisted |
| `TodoList.TodoApp.SaveEditedTodo` | todo-app/oopScript.js:255-268 | the list becomes `EditSaved`; it is persisted only when the text is not blank |
| `TodoList.TodoApp.CancelEditingTodo` | todo-app/oopScript.js:271-276 | the list becomes `EditCancelled`; nothing is persisted |
| `CalculatorEntry.DotCount` | calculator/scripts/main.js:123 | the number of points is 0 exactly when `includes(".")` is false |
| `CalculatorEntry.SetOperation` | calculator/scripts/main.js:34-43 | the display becomes the first operand, the operator is stored, and the calculator waits for the second number |
| `CalculatorEntry.AddNumber` | calculator/scripts/main.js:46-58 | while waiting, the display becomes exactly the digit and waiting ends; otherwise "0" is replaced and any other display is appended to |
| `CalculatorEntry.CalculateResult` | calculator/scripts/main.js:61-99 | with no first number or operator nothing changes; division by zero shows "Error" and keeps the pending operation; any other path shows the result and clears all three variables |
| `CalculatorEntry.ClearEntry` | calculator/scripts/main.js:101-104 | only the display is reset to "0" |
| `CalculatorEntry.ClearAll` | calculator/scripts/main.js:107-114 | everything returns to the initial state |
| `CalculatorEntry.AddDecimal` | calculator/scripts/main.js:116-130 | while waiting or on "0" the display becomes "0."; otherwise one point is appended if there is none, and nothing changes if there is one; afterwards the display has a point |
| `CalculatorEntry.DeleteLast` | calculator/scripts/main.js:134-152 | one character becomes "0", a longer display loses its last character, an empty one is kept, and a non-empty display never becomes empty |
| `CalculatorEntry.AddDecimalIdempotent` | calculator/scripts/main.js:116-130 | a second decimal point changes nothing |
| `CalculatorEntry.EntryKeepsOnePoint` | calculator/scripts/main.js:116-130 | a display with at most one point keeps at most one through every entry operation |
| `CalculatorEntry.CalculateFinishes` | calculator/scripts/main.js:61-99 | `=` either changes nothing, shows "Error", or leaves no operation pending |
| `CalculatorScript.Calculator.constructor` | calculator/scripts/main.js:25-27 | the variables start as null, null, false |
| `CalculatorScript.Calculator.SetOperation` | calculator/scripts/main.js:34-43 | the handler performs `CalculatorEntry.SetOperation` |
| `CalculatorScript.Calculator.AddNumber` | calculator/scripts/main.js:46-58 | the handler performs `CalculatorEntry.AddNumber` |
| `CalculatorScript.Calculator.CalculateResult` | calculator/scripts/main.js:61-99 | the handler performs `CalculatorEntry.CalculateResult` |
| `CalculatorScript.Calculator.ClearEntry` | calculator/scripts/main.js:101-104 | the handler performs `CalculatorEntry.ClearEntry` |
| `CalculatorScript.Calculator.ClearAll` | calculator/scripts/main.js:107-114 | the handler performs `CalculatorEntry.ClearAll` |
| `CalculatorScript.Calculator.AddDecimal` | calculator/scripts/main.js:116-130 | the handler performs `CalculatorEntry.AddDecimal` |
| `CalculatorScript.Calculator.DeleteLast` | calculator/scripts/main.js:134-152 | the handler performs `CalculatorEntry.DeleteLast` |
| `CounterRules.UpdateCountDisplay` | counter-app/script.js:36-46 | the reset button is shown exactly when the count is not 0, and nothing else changes |
| `CounterRules.EnableButtons` | counter-app/script.js:168-172 | increase and decrease are enabled exactly when `state` is true, and reset exactly when it is false |
| `CounterRules.Initial` | counter-app/script.js:175-179 | after the top-level state of lines 29-33 and the load handler, the count is the saved value or 0; no game or auto mode runs; 15 seconds are on the clock; increase and decrease are enabled; no message shows; nothing is scheduled; the page invariant holds |
| `CounterRules.ResetHandler` | counter-app/script.js:49-68 | a declined confirm changes nothing; a confirmed one zeroes the count and hides the reset button, stops auto mode, and ends a running game with the game button re-enabled and the reset message; the clock, the other buttons and the scheduled restores are kept |
| `CounterRules.ResetClick` | counter-app/script.js:49-68 | a disabled or hidden reset button dispatches no click; otherwise the listener runs |
| `CounterRules.Increase` | counter-app/script.js:72-77 | plus one unless a game is running and the count has reached 10 |
| `CounterRules.Decrease` | counter-app/script.js:79-84 | minus one from a positive count; at 0 or below, nothing changes during a game and only the display is refreshed outside one |
| `CounterRules.IncreaseClick` | counter-app/script.js:72-77 | a disabled increase button dispatches no click; otherwise one increase |
| `CounterRules.DecreaseClick` | counter-app/script.js:79-84 | a disabled decrease button dispatches no click; otherwise one decrease |
| `CounterRules.KeyDown` | counter-app/script.js:87-99 | up, "+" and right increase; down, "-" and left decrease; other keys do nothing |
| `CounterRules.DoubleClick` | counter-app/script.js:102-108 | a confirmed double-click zeroes the count and hides the reset button, and changes nothing else; a declined one changes nothing |
| `CounterRules.AutoClick` | counter-app/script.js:111-123 | the auto button switches auto mode on or off |
| `CounterRules.AutoTick` | counter-app/script.js:117-120 | each auto firing adds exactly one and refreshes the reset button; the game, the buttons and the message are untouched |
| `CounterRules.GameHandler` | counter-app/script.js:126-137 | a start during a game is a no-op; otherwise the count is 0, 15 seconds are left, the game runs, its button is disabled, increase/decrease are enabled and reset is disabled; auto mode and the scheduled restores are kept |
| `CounterRules.GameClick` | counter-app/script.js:126-137 | a disabled game button dispatches no click; otherwise the listener runs |
| `CounterRules.EndGame` | counter-app/script.js:152-166 | the game stops and its button is re-enabled; increase/decrease are disabled and reset enabled; the message says won or the count reached; a delayed restore is scheduled; the count, the clock, auto mode and the reset button's visibility are kept |
| `CounterRules.GameTick` | counter-app/script.js:139-149 | one second less; a count at the target ends the game as won before a time-out is checked; at 0 seconds the game ends as lost; in both cases the new state is exactly `endGame`'s; otherwise only the clock and the countdown message change |
| `CounterRules.RestoreAfterEnd` | counter-app/script.js:162-165 | the delayed step clears the message and refills the clock to 15 seconds |
| `CounterRules.ClicksKeepInv` | counter-app/script.js:44-172 | every button click keeps the page invariant: reset shown iff count ≠ 0, and the button states match whether a game runs |
| `CounterRules.KeysKeepInv` | counter-app/script.js:87-99 | key presses keep the page invariant |
| `CounterRules.TimersKeepInv` | counter-app/script.js:117-165 | auto ticks, game ticks and the delayed restore keep the page invariant |
| `CounterRules.ResetUnreachableDuringGame` | counter-app/script.js:62-68 | during a game the reset button is disabled, so a reset click changes nothing |
| `CounterRules.ManualIncreaseCapped` | counter-app/script.js:72-92 | manual increases during a game never lift the count above 10 |
| `CounterRules.DecreaseFloor` | counter-app/script.js:79-98 | decreases never take a non-negative count below 0, and 0 stays 0 |
| `CounterRules.LastSecondWin` | counter-app/script.js:144-148 | reaching 10 by the last second counts as a win |
| `CounterRules.AutoTickIgnoresTarget` | counter-app/script.js:117-120 | the auto tick can lift the count past 10 during a game |
| `CounterRules.StaleRestoreRefillsClock` | counter-app/script.js:162-165 | an earlier game's delayed restore firing during a new game refills its clock to 15 |
| `CounterRules.GameEndsWhenTimeRunsOut` | counter-app/script.js:139-148 | whatever the count does, a running game is over after as many ticks as it has seconds left |
| `CounterRules.GameEndsWithinDuration` | counter-app/script.js:132-148 | every running game is over within 15 ticks |
| `CounterScript.CounterPage.constructor` | counter-app/script.js:175-179 | the script and its load handler produce `CounterRules.Initial` |
| `CounterScript.CounterPage.ToggleResetButton` | counter-app/script.js:44-46 | the reset button is shown exactly when the count is not 0 |
| `CounterScript.CounterPage.UpdateCountDisplay` | counter-app/script.js:36-41 | performs `CounterRules.UpdateCountDisplay` |
| `CounterScript.CounterPage.EnableButtons` | counter-app/script.js:168-172 | performs `CounterRules.EnableButtons` |
| `CounterScript.CounterPage.ResetClick` | counter-app/script.js:49-68 | performs `CounterRules.ResetClick` |
| `CounterScript.CounterPage.Increase` | counter-app/script.js:72-77 | performs `CounterRules.Increase` |
| `CounterScript.CounterPage.Decrease` | counter-app/script.js:79-84 | performs `CounterRules.Decrease` |
| `CounterScript.CounterPage.IncreaseClick` | counter-app/script.js:72-77 | performs `CounterRules.IncreaseClick` |
| `CounterScript.CounterPage.DecreaseClick` | counter-app/script.js:79-84 | performs `CounterRules.DecreaseClick` |
| `CounterScript.CounterPage.KeyDown` | counter-app/script.js:87-99 | performs `CounterRules.KeyDown` |
| `CounterScript.CounterPage.DoubleClick` | counter-app/script.js:102-108 | performs `CounterRules.DoubleClick` |
| `CounterScript.CounterPage.AutoClick` | counter-app/script.js:111-123 | performs `CounterRules.AutoClick` |
| `CounterScript.CounterPage.AutoTick` | counter-app/script.js:117-120 | performs `CounterRules.AutoTick` |
| `CounterScript.CounterPage.GameClick` | counter-app/script.js:126-137 | performs `CounterRules.GameClick` |
| `CounterScript.CounterPage.EndGame` | counter-app/script.js:152-166 | performs `CounterRules.EndGame` |
| `CounterScript.CounterPage.GameTick` | counter-app/script.js:139-149 | performs `CounterRules.GameTick` |
| `CounterScript.CounterPage.RestoreAfterEnd` | counter-app/script.js:162-165 | performs `CounterRules.RestoreAfterEnd` |
| `ModularCounter.SetCount` | counter-app/modules/counter.js:16-20 | the count becomes the value, and the value is saved |
| `ModularCounter.Initial` | counter-app/modules/counter.js:5 | before load the count is 0 and storage holds whatever it held |
| `ModularCounter.RestoreCount` | counter-app/modules/storage.js:9-16 | the saved value, or 0 when nothing is saved, becomes the count, through `setCount` |
| `ModularCounter.Increase` | counter-app/modules/counter.js:23-26 | plus exactly one, with no upper bound, and saved |
| `ModularCounter.Decrease` | counter-app/modules/counter.js:28-31 | minus one from a positive count, otherwise unchanged, and saved either way |
| `ModularCounter.DoubleClick` | counter-app/modules/counter.js:33-39 | nothing at 0 or when declined; a confirmed double-click sets 0 and saves it |
| `ModularCounter.KeyDown` | counter-app/modules/counter.js:41-53 | up, "+" and right increase; down, "-" and left decrease; other keys do nothing |
| `ModularCounter.GetAfterSet` | counter-app/modules/counter.js:12-20 | `getCount` returns the value last passed to `setCount`, which is also the saved value |
| `ModularCounter.EventsStaySynced` | counter-app/modules/counter.js:16-53 | once restored, the saved value follows the count through every event |
| `ModularCounter.DecreaseFloor` | counter-app/modules/counter.js:28-31 | a non-negative count stays non-negative, and 0 stays 0 |
| `ModularCounter.KeysKeepCountNonNegative` | counter-app/modules/counter.js:41-53 | any sequence of key presses keeps a non-negative count non-negative |
| `ModularGame.InitialGame` | counter-app/modules/gameMode.js:10-13 | the game starts idle with 15 seconds and target 10, its button enabled, no message and nothing scheduled |
| `ModularGame.StartHandler` | counter-app/modules/gameMode.js:21-33 | a start during a game is a no-op; otherwise target 10, 15 seconds, count 0 through `setCount`, active, button disabled |
| `ModularGame.StartClick` | counter-app/modules/gameMode.js:21-33 | a disabled start button dispatches no click; otherwise the listener runs |
| `ModularGame.Finish` | counter-app/modules/gameMode.js:47-57 | the game stops and its button is enabled; the message says won or the count reached; the count is untouched; a delayed reset is scheduled |
| `ModularGame.Tick` | counter-app/modules/gameMode.js:35-62 | one second less with the count untouched; the win check comes before the time-out check; a win or a time-out is exactly `finish`, which re-enables the button and schedules the delayed reset; otherwise only the clock and the countdown message change |
| `ModularGame.DelayedReset` | counter-app/modules/gameMode.js:58-64 | the delayed step restores 15 seconds and target 10 and clears the message |
| `ModularGame.StepsKeepInv` | counter-app/modules/gameMode.js:21-64 | start, tick and delayed reset keep the target at 10 and a running game's clock between 1 and 15 with its button disabled |
| `ModularGame.FinishAllowsRestart` | counter-app/modules/gameMode.js:47-51 | after a finish, a start click begins a new game |
| `ModularGame.LastSecondWin` | counter-app/modules/gameMode.js:40-44 | reaching the target on the last tick is a win |
| `ModularGame.IncreaseDuringGameUnbounded` | counter-app/modules/counter.js:23-26 | nothing stops increases during a game: the count can pass the target |
| `ModularGame.GameEndsWhenTimeRunsOut` | counter-app/modules/gameMode.js:35-45 | a running game is over after as many ticks as it has seconds left, whatever the count does |
| `ModularGame.GameEndsWithin15Ticks` | counter-app/modules/gameMode.js:24-45 | a game just started is over within 15 ticks |
| `ModularCounterPage.Counter.constructor` | counter-app/modules/counter.js:5 | the module starts with count 0 |
| `ModularCounterPage.Counter.GetCount` | counter-app/modules/counter.js:12-14 | returns the count |
| `ModularCounterPage.Counter.SetCount` | counter-app/modules/counter.js:16-20 | performs `ModularCounter.SetCount` |
| `ModularCounterPage.Counter.RestoreCount` | counter-app/modules/storage.js:9-16 | performs `ModularCounter.RestoreCount` |
| `ModularCounterPage.Counter.Increase` | counter-app/modules/counter.js:23-26 | performs `ModularCounter.Increase` |
| `ModularCounterPage.Counter.Decrease` | counter-app/modules/counter.js:28-31 | performs `ModularCounter.Decrease` |
| `ModularCounterPage.Counter.DoubleClick` | counter-app/modules/counter.js:33-39 | performs `ModularCounter.DoubleClick` |
| `ModularCounterPage.Counter.KeyDown` | counter-app/modules/counter.js:41-53 | performs `ModularCounter.KeyDown` |
| `ModularCounterPage.GameMode.constructor` | counter-app/modules/gameMode.js:10-13 | the game variables start as in `ModularGame.InitialGame`, over the shared counter |
| `ModularCounterPage.GameMode.StartClick` | counter-app/modules/gameMode.js:21-33 | performs `ModularGame.StartClick` on the game and the shared counter |
| `ModularCounterPage.GameMode.Finish` | counter-app/modules/gameMode.js:47-57 | performs `ModularGame.Finish` |
| `ModularCounterPage.GameMode.Tick` | counter-app/modules/gameMode.js:35-45 | performs `ModularGame.Tick` |
| `ModularCounterPage.GameMode.DelayedReset` | counter-app/modules/gameMode.js:58-64 | performs `ModularGame.DelayedReset` |
| `SliderIndex.JsRemainder` | image-slider/main.js:75 | JavaScript's `%` agrees with the mathematical remainder on non-negative operands; on a negative operand it lies in (-n, 0] and differs from the operand by a multiple of n; it always stays strictly between -n and n |
| `SliderIndex.NextIndex` | image-slider/main.js:74-77 | next keeps the index in range, moves one forward, and wraps from the last image to 0 |
| `SliderIndex.PrevIndex` | image-slider/main.js:79-82 | previous keeps the index in range, moves one back, and wraps from 0 to the last image |
| `SliderIndex.NextPrevInverse` | image-slider/main.js:74-82 | previous after next, and next after previous, restore the index |
| `SliderIndex.AdvanceIsModulo` | image-slider/main.js:75 | k presses of next move the index k places around the circle |
| `SliderIndex.FullCycle` | image-slider/main.js:20-30 | nine presses of next return to the starting image |
| `SliderIndex.SlideWidth` | image-slider/main.js:48 | the slides' widths add up to the whole strip |
| `SliderIndex.SlideFor` | image-slider/main.js:52-64 | each slide shows its image at the common slide width |
| `SliderIndex.Offset` | image-slider/main.js:67-72 | the transform moves slide i's left edge to the strip's origin, between -100% and 0 for an index in range |
| `ImageSlider.Slider.constructor` | image-slider/main.js:32 | the index starts at 0, with one slide per image |
| `ImageSlider.Slider.CreateSlides` | image-slider/main.js:43-65 | the loop builds one slide per image, in order, and the strip is 100% per slide wide |
| `ImageSlider.Slider.ShowSlide` | image-slider/main.js:67-72 | the transform becomes the offset of the given slide |
| `ImageSlider.Slider.NextSlide` | image-slider/main.js:74-77 | the index becomes `NextIndex` and stays in range, and that slide is shown |
| `ImageSlider.Slider.PrevSlide` | image-slider/main.js:79-82 | the index becomes `PrevIndex` and stays in range, and that slide is shown |
| `NavbarPaths.DetectBasePath` | js/universalNavbar.js:40-57 | never empty; "./" exactly in the three root cases; otherwise one or more copies of "../" |
| `NavbarPaths.ClimbCountsDirectories` | js/universalNavbar.js:53-56 | outside the root cases, the number of "../" steps is the segment count less one, but at least one |
| `NavbarPaths.RootExamples` | js/universalNavbar.js:44-50 | "/", a path ending in "index.html", and a path without "/" all give "./" |
| `NavbarPaths.FolderPageClimbsOnce` | js/universalNavbar.js:53-56 | "/a/" gives "../" |
| `NavbarPaths.NestedPageClimbsTwice` | js/universalNavbar.js:53-56 | "/a/b/c" gives "../../" |
| `NavbarPaths.SubfolderIndexTreatedAsRoot` | js/universalNavbar.js:46 | "/todo-app/index.html" still gives "./" |
| `NavbarPaths.ChooseBasePath` | js/universalNavbar.js:63 | a non-empty custom base path wins; a missing or empty one falls back to detection |
| `NavbarPaths.HomeHref` | js/universalNavbar.js:85-91 | both branches give the base path followed by "index.html" |
| `NavbarPaths.ProjectLink` | js/universalNavbar.js:124-128 | a project's link goes to the base path followed by its url, labelled with its name |
| `NavbarPaths.ProjectLinks` | js/universalNavbar.js:123-130 | one link per project, in order |
| `NavbarPaths.InjectNavbarCss` | js/universalNavbar.js:26-37 | with the id present nothing changes; otherwise one stylesheet link to `basePath + "css/navbar.css"` is added |
| `NavbarPaths.InsertNavbar` | js/universalNavbar.js:69-79 | the container is created only if it is missing, and only its id is added; its fresh markup points brand and home at "#" and has an empty dropdown; the stylesheets are kept |
| `NavbarPaths.LoadProjects` | js/universalNavbar.js:108-135 | on success the dropdown holds the project links; on failure it holds the single error entry |
| `NavbarPaths.LoadNavbar` | js/universalNavbar.js:60-94 | brand and home go to `basePath + "index.html"`; the stylesheet and container are present; the dropdown is as `LoadProjects` says |
| `NavbarPaths.InjectNavbarCssIdempotent` | js/universalNavbar.js:26-37 | a second injection adds nothing, whatever base path it is given |
| `NavbarPaths.LoadOnFreshPage` | js/universalNavbar.js:26-79 | on a page without the bar, loading adds exactly one stylesheet link and one container |
| `NavbarPaths.LoadNavbarIdempotent` | js/universalNavbar.js:60-94 | loading the bar twice leaves the page as loading it once |
| `UniversalNavbar.NavbarPage.InjectNavbarCss` | js/universalNavbar.js:26-37 | performs `NavbarPaths.InjectNavbarCss` |
| `UniversalNavbar.NavbarPage.LoadProjects` | js/universalNavbar.js:108-135 | the forEach loop builds `NavbarPaths.LoadProjects`'s dropdown |
| `UniversalNavbar.NavbarPage.LoadUniversalNavbar` | js/universalNavbar.js:60-105 | performs `NavbarPaths.LoadNavbar` |
| `ClockFormat.FormatTime` | digital-clock/src/script.js:3-5 | below 10, "0" and the digit; from 10 up, the plain decimal form; exactly two digits below 100 |
| `ClockFormat.FormatTimeRoundTrip` | digital-clock/src/script.js:3-5 | a two-digit field reads back as the number formatted |
| `ClockFormat.FormatTimeInjective` | digital-clock/src/script.js:3-5 | different numbers below 100 never show as the same field |
| `ClockFormat.TimeString` | digital-clock/src/script.js:15-19 | eight characters, ":" at positions 2 and 5, and the fields are the formatted hours, minutes and seconds |
| `ClockFormat.TimeStringReadsBack` | digital-clock/src/script.js:15-19 | hours, minutes and seconds read back from their fields |
| `DigitalClock.ClockFace.UpdateClock` | digital-clock/src/script.js:12-22 | the clock shows `TimeString` of the hour, minute and second read |

## Left out

- DOM construction and event wiring: `createElement`, `appendChild`, `addEventListener`, `focus`, `console.log`, and the CSS class animations.
- `showMessage` in the to-do list: its text, colours and 3-second clear are DOM presentation.
- `confirm`: modelled as a boolean parameter.
- Timers: each `setInterval` firing is one tick call. Each `setTimeout` callback is a step that can run once per earlier scheduling, at any later point.
- The 2-second "Game reset." clear in `counter-app/script.js`: its branch is only reached through the reset button, which is disabled during a game (`CounterRules.ResetUnreachableDuringGame`).
- Progress-ring geometry (`setProgress`, `counter-app/modules/progress.js`): floating-point SVG values.
- Calculator arithmetic: `parseFloat`, IEEE operations, number-to-string conversion, `toggleSign`, and which operator symbols the buttons send. `CalculatorEntry.CalculateResult` takes the zero test and the result text as parameters. That also covers an unknown operator, whose result prints as "undefined".
- `CalculatorEntry.SetOperation`: `firstNumber` is kept as the display text it was parsed from, not as the parsed number.
- Malformed stored to-dos, where `JSON.parse` throws. The stored list is an `Option` of the list itself, so the JSON round trip is the identity.
- Out-of-range or negative indices in the to-do store: excluded by preconditions. The source does no bounds checks.
- The saved counter value: `parseInt` of the stored text is taken as an integer. A stored value that parses to NaN is not modelled.
- `counter-app/modules/ui.js`: DOM updates only. Its `toggleResetButton` is called without an argument at line 8, so the reset button display is not modelled for the modular counter.
- `counter-app/modules/autoCounter.js`: an interval toggle. Its tick is `setCount(getCount() + 1)`, which is `ModularCounter.Increase`.
- `counter-app/main.js`, `todo-app/main.js`, `tip-calculator`, `color-flipper` (random colours), `navbar.js`, `js/navbar.js`, `js/main.js` and `js/projects.js`: wiring, logging, randomness, or static data.
- In the navigation bar:
  - `fetch` and the reading of its response are left out. The model takes the projects read, or `None` when the request or the read failed.
  - The `localeCompare` sort is left out. The model takes the projects in the order the sort leaves them.
  - `setupDropdown` is class toggling, and DOM errors caught by `loadUniversalNavbar`'s `try` are left out.
- The image slider's widths and offsets are exact reals, not IEEE doubles.
- The clock's `Date` reads are left out: hour, minute and second are parameters. `formatTime12Hour` has an empty body.
- `CounterRules.GameEndsWithinDuration` and `ModularGame.GameEndsWithin15Ticks` assume that no earlier game's delayed restore fires during the game. If one does, the clock is refilled to 15 seconds (`CounterRules.StaleRestoreRefillsClock`), and the game runs longer.

## Findings

| source | as written | input that shows it | evidently intended | confidence | as-written member | corrected member |
|---|---|---|---|---|---|---|
| todo-app/oopScript.js:141 | `renderTodos` calls `this.createElement("div")`, which `TodoApp` does not define (only `createTodoElement`, line 106). For any non-empty list it throws after clearing the list element. Construction with stored to-dos therefore fails before the listeners are set up, and each add, delete, toggle or save has already changed and persisted the list when it throws. | any list with one record, e.g. after adding "Buy milk" | one row per record, in order, as the rest of the method builds them | high, not executed | `TodoList.RenderAsWritten`, `TodoList.RenderAsWrittenLosesRows` | `TodoList.RenderPlan` (used by `TodoList.TodoApp.RenderTodos`) |
