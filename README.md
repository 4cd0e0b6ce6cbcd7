# LifeOS adaptive dashboard — a Dafny model

LifeOS is a single-page personal organiser (finance, tasks and goals, a focus
timer, hydration, a PIN lock, a file vault). Apart from the vault's files,
which are kept in IndexedDB, and the timer's count and interval handle, which
are globals of their own, its data lives in one in-memory state document,
which the page's handlers change in place. This project models the
logic of `script.js` that sits under the DOM calls:

- the **adaptive engine**: per-module usage counters that navigation bumps,
  a time-of-day mode and greeting, the four dashboard widgets scored and
  sorted highest first (the hydration widget scores a fixed 100 while fewer
  than four glasses are logged), and the priority mark on the first widget;
- the **domain handlers** on the state document: expenses, tasks, goals,
  water, the daily reset at start-up, the PIN;
- the **focus timer**: the one-second tick, its `mm:ss` display and the
  25-minute credit when a 1500-second session runs out.

Layout:

- `adaptive.dfy` — module `Adaptive`, pure: counters (`Bump`, `ClearedStats`),
  `ModeAt` with its badge text and class, `GreetingAt` with its text, the scores, the stable sort
  (`Insert`, `SortByScore`) with its permutation, ordering, stability and
  uniqueness lemmas, the cards with their priority mark, and `Render`, the
  value `adaptive.run` draws.
- `focus_timer.dfy` — module `FocusTimer`, pure: number formatting and the
  `mm:ss` clock with its parser, one tick (`Advance`), runs of ticks
  (`Ticks`), and the `timerInterval` handle.
- `records.dfy` — module `Records`, pure: transactions, tasks, goals, task
  lookup by id, the PIN length rule and the budget alert threshold.
- `lifeos.dfy` — module `LifeOS`: the class `App`, one field per field of the
  state document plus the timer globals and what the page shows (the drawn
  dashboard, the timer display, the lock screen); one method per handler.
- `wrappers.dfy` — `Option`.

Modelling choices:

- The clock is an input. `hour` is the local hour (`getHours`), `now` a
  timestamp in milliseconds (`Date.now()`), and `utcOffset` the local zone's
  offset from UTC in milliseconds; two timestamps have the same
  `toDateString` when `LifeOS.LocalDay` gives them the same day number. Each tick of the interval is one call of
  `App.TimerTick`.
- Money is whole cents. The result of `parseFloat` is an `Option<int>`:
  `None` is NaN.
- `state.stats` is a `map<string, int>`, so any key present in it counts,
  `"lastActive"` included, as with the source's `!== undefined` test.
- `Array.prototype.sort` is stable, so the comparator
  `(a, b) => b.score - a.score` is modelled as a stable insertion sort;
  `OrderedUnique` shows that every stable descending sort of the four
  widgets gives the same order, so the choice of sort does not matter.
- `tasks.toggle` on an id that no task has throws before anything is
  changed; `App.ToggleTask` reports this as `found == false` and changes
  nothing.
- The comment on `finance.add` (script.js:194) says the balance starts at
  the budget, but the initial document (script.js:9) sets it to 0. The model
  follows the code: the constructor sets the balance to 0, and the invariant
  is that the balance is minus the sum of all expenses. With that start,
  `Records.OverBudget(InitialBudget, 0)` holds, so the first
  `finance.render` switches the alert on even with no expense recorded. As
  written, start-up never calls it (see Findings), so this happens at the
  first `renderAll` that a handler makes.

## Model

| member | source | states |
|---|---|---|
| `Adaptive.Bump` | script.js:63-67 | a present key (any key, "lastActive" included) goes up by exactly 1, every other entry and the key set stay the same, an absent key changes nothing |
| `Adaptive.ClearedStats` | script.js:151-152 | after a reset the counters are the five keys, every counter is 0 and "lastActive" is the current time |
| `Adaptive.ModeAt` | script.js:72-82 | Work Mode exactly for 9 ≤ hour < 17, Finance Mode exactly for 17 ≤ hour < 20, Wellness Mode for every other hour |
| `Adaptive.ModeClassRule` | script.js:73-80 | the mode class is "work" exactly in the work window and "wellness" otherwise, the finance window included; the page computes this class but does not apply it to the badge |
| `Adaptive.ModeLabelRule` | script.js:73-80 | the badge's label (after its emoji prefix, which is presentation) reads "Work Mode" exactly for 9 ≤ hour < 17, "Finance Mode" exactly for 17 ≤ hour < 20, and "Wellness Mode" at every other hour |
| `Adaptive.GreetingAt` | script.js:107 | the morning greeting exactly for hour < 12, the afternoon one exactly for 12 ≤ hour < 18, the evening one exactly from 18 on |
| `Adaptive.GreetingRule` | script.js:107 | the greeting line reads "Good Morning" exactly before 12, "Good Afternoon" exactly from 12 to before 18, "Good Evening" exactly from 18 on |
| `Adaptive.WaterScoreRule` | script.js:89 | the hydration widget scores 100 when fewer than 4 glasses are logged and 0 otherwise |
| `Adaptive.SortPermutation` | script.js:93 | the sorted list is a permutation of the list given |
| `Adaptive.SortNonIncreasing` | script.js:93 | scores never go up along the sorted list |
| `Adaptive.SortStable` | script.js:85-93 | for a list in declared order, widgets with equal scores keep the declared order after sorting |
| `Adaptive.OrderedMeans` | script.js:93 | being ordered by (score descending, declared position) is the same as non-increasing scores with ties in declared order |
| `Adaptive.OrderedUnique` | script.js:93 | two ordered lists of the same widgets are equal |
| `Adaptive.WidgetOrderIsSorted` | script.js:85-93 | the widget order holds each of the four widgets once, with non-increasing scores and ties in the order fin, task, focus, water |
| `Adaptive.WidgetOrderUnique` | script.js:85-93 | any stable descending sort of the four widgets gives exactly the modelled order |
| `Adaptive.Cards` | script.js:99-101 | the cards list the widgets in the sorted order |
| `Adaptive.PriorityExactlyOne` | script.js:99-101 | a card is priority exactly when it is the first and adaptive mode is on, so one card is priority when adaptive mode is on and none when it is off |
| `Adaptive.RenderSpec` | script.js:71-109 | the drawn dashboard shows the four widgets once each, sorted by score with ties in declared order, the priority mark on the first card exactly when adaptive mode is on, and the mode, greeting and lock state of the moment |
| `Adaptive.OrderedTail` | script.js:93 | dropping the first widget of an ordered list leaves an ordered list |
| `Adaptive.FirstOfOrdered` | script.js:93 | a widget that beats every other widget of an ordered list comes first in it |
| `Adaptive.SameHead` | script.js:93 | two ordered lists of the same widgets start with the same widget |
| `Adaptive.LastOfOrdered` | script.js:93 | a widget that every other widget of an ordered list beats comes last in it |
| `Adaptive.WaterFirstWhenLow` | script.js:85-101 | under 4 glasses, with every usage counter below 100, hydration is the first card and is priority exactly when adaptive mode is on |
| `Adaptive.WaterLastWhenMet` | script.js:85-101 | from 4 glasses on, with no negative counter, hydration is the last card and not priority |
| `FocusTimer.ClockRoundTrip` | script.js:256-258 | below 100 minutes the display is five characters `mm:ss` and reads back as the same number of seconds |
| `FocusTimer.FreshSessionDisplay` | script.js:273-274 | the "25:00" that reset shows is the clock display of 1500 seconds |
| `FocusTimer.Advance` | script.js:255-263 | a tick takes one second off; the tick that reaches zero restarts at 1500 and credits 25 minutes; the count stays in 1..1500 |
| `FocusTimer.CountingDown` | script.js:254-263 | fewer ticks than there are seconds left only count down and credit nothing |
| `FocusTimer.NoEarlyCompletion` | script.js:259 | no tick before the last one of a session completes it |
| `FocusTimer.FullSession` | script.js:254-263 | 1500 ticks from a fresh countdown credit exactly 25 minutes and leave a fresh countdown |
| `FocusTimer.ToggleInterval` | script.js:249-268 | toggling starts an interval exactly when no handle is held, and afterwards a handle is held exactly while an interval fires |
| `FocusTimer.StopAtCompletionAsWritten` | script.js:259-260 | at zero the interval stops firing, a held handle stays held and so falls out of step with the interval, and the next toggle starts the timer only if no handle was held |
| `FocusTimer.StaleHandleAsWritten` | script.js:249-263 | after a session started by one toggle runs out, the next toggle leaves the timer stopped and only a second toggle starts it |
| `FocusTimer.StopAtCompletion` | script.js:259-260 | with the fix, at zero the interval stops with its handle in step, and the next toggle starts the timer |
| `FocusTimer.CompletionKeepsSync` | script.js:249-275 | with the corrected completion the handle stays in step with the interval, and one toggle after a finished session starts the timer |
| `Records.FindTask` | script.js:229 | the result is the index of the first task with the id, and None exactly when no task has it |
| `Records.Flip` | script.js:230 | only the task at the index has `done` flipped; the length and every other task are unchanged |
| `Records.FlipTwice` | script.js:228-230 | flipping the same task twice gives the original list |
| `Records.FlipKeepsLookup` | script.js:228-230 | flipping keeps the ids, so the same task is found again |
| `Records.OverBudget` | script.js:208-212 | the alert is switched on exactly when (budget − balance) / budget × 100 > 80, computed in integers |
| `LifeOS.TrackedModule` | script.js:165-167 | only the finance, tasks and focus views are counted, each under the counter named by the view id without "view-" |
| `LifeOS.App.constructor` | script.js:7-24 | the initial document: default user, adaptive on and unlocked, no PIN, zero balance, budget 2000, empty lists, zero counters, a fresh stopped timer |
| `LifeOS.App.Run` | script.js:71-109 | the drawn dashboard is `Render` of the current state and hour |
| `LifeOS.App.Track` | script.js:63-70 | the counters become `Bump` of the old ones; the dashboard is redrawn exactly when the key was present, the layout unlocked and adaptive mode on; nothing else changes |
| `LifeOS.App.ToggleLayoutLock` | script.js:141-145 | the lock flips and the dashboard is redrawn |
| `LifeOS.App.ToggleConfig` | script.js:146-150 | adaptive mode takes the given value and the dashboard is redrawn |
| `LifeOS.App.ResetStats` | script.js:151-155 | the counters are cleared and the dashboard is redrawn |
| `LifeOS.App.Go` | script.js:160-167 | a visit to a tracked view is a `Track` of its counter; any other view changes nothing |
| `LifeOS.App.AddExpense` | script.js:189-194 | a non-zero, non-NaN amount puts one transaction in front of the list and takes the amount off the balance; zero or NaN changes nothing; the balance stays minus the sum of the expenses |
| `LifeOS.App.AddTask` | script.js:216-219 | non-empty text appends one open task; empty text changes nothing |
| `LifeOS.App.AddGoal` | script.js:224-227 | a non-empty answer appends one goal; a cancelled or empty prompt changes nothing |
| `LifeOS.App.ToggleTask` | script.js:228-233 | `done` flips on the first task with the id and nowhere else; with no such task nothing changes |
| `LifeOS.App.AddWater` | script.js:278-281 | one more glass is logged and the dashboard is redrawn |
| `LifeOS.App.TimerToggle` | script.js:249-253 | a held handle is cleared, otherwise an interval is started: the timer runs afterwards exactly when no handle was held before |
| `LifeOS.App.TimerTick` | script.js:254-267 | the count and focus time advance by `Advance`, the display shows the new count as `mm:ss`; at zero the interval stops, its handle is kept as in the page, and the dashboard is redrawn |
| `LifeOS.FinishedSessionNeedsTwoToggles` | script.js:249-263 | after the last tick of a running session the count is fresh and 25 minutes are credited; the first toggle leaves the timer stopped and only the second starts it |
| `LifeOS.App.TimerReset` | script.js:270-275 | the interval is cleared, the count is 1500 and the display reads 25:00 |
| `LifeOS.App.SetPin` | script.js:320-323 | the PIN is stored exactly when it has four characters |
| `LifeOS.App.CheckLock` | script.js:324-326 | a stored non-empty PIN shows the lock screen |
| `LifeOS.App.Unlock` | script.js:327-331 | unlocking succeeds exactly when a PIN is stored and the entry equals it, and only then hides the lock screen |
| `LifeOS.App.StartDay` | script.js:35-40 | water and focus time are zeroed exactly when the local day of "lastActive" differs from today's, and are kept otherwise; "lastActive" becomes now and no other counter changes |
| `LifeOS.App.InitAsWritten` | script.js:28-33 | as written, start-up only shows the lock screen for a stored PIN; the water, focus time, counters and dashboard stay as they were |
| `LifeOS.NewDayKeptAsWritten` | script.js:28-40 | as written, a start-up on a new day keeps the old day's water and draws no dashboard |
| `LifeOS.App.Init` | script.js:28-44 | water and focus time are zeroed exactly when the last active day differs from today; "lastActive" becomes now; a stored PIN shows the lock screen; the dashboard is drawn |
| `LifeOS.LockTwiceRestores` | script.js:141-145 | toggling the layout lock twice restores it and leaves the counters and water as they were |
| `LifeOS.ToggleTwiceRestores` | script.js:228-233 | toggling the same task twice restores the task list |

## Left out

- Rendering: `getWidgetHTML`, the `render` functions, `renderAll`, the view and nav highlighting and the page title in `router.go` are presentation. The model keeps only what `adaptive.run` decides: the mode, the mode class, the greeting, the card order and priority marks, and the lock state.
- `data.save`, `data.load` with its shallow merge, and `data.reset`: browser storage and `confirm`. The model starts from the initial document.
- The file vault (`vault.initDB`, `upload`, `render`, `del`): asynchronous calls into IndexedDB, which the model does not have. Its one effect on the modelled state, the start-up that never resumes (see Findings), is modelled by `LifeOS.App.InitAsWritten`.
- `ui.toggleTheme`, `ui.applyTheme`, `ui.toggleQuickMenu`: presentation; `theme` and `name` are fields that no modelled handler changes.
- `alert` and `prompt`: the alerts are dropped; the answer of `prompt` is the `Option<string>` parameter of `App.AddGoal`.
- `setInterval` scheduling and `Date`: each tick is an explicit call, and the hour, the timestamp and the zone offset are parameters. The offset is one fixed number, so a change of daylight-saving time between the two timestamps is not modelled.
- Floating point: amounts are whole cents, so an input that parses to a non-zero amount below one cent, or to Infinity, is not modelled; `toFixed` and the progress-bar width are presentation.
- `Adaptive.Bump`: JavaScript's `!== undefined` also holds for keys inherited from `Object.prototype` (such as "toString"); the model's counters have only the document's own keys, which are the only keys the handlers pass.
- `Records.OverBudget`: states when `finance.render` shows the alert; the page never hides it again once shown, even when a negative amount brings the percentage back to 80 or below, and the model has no field for the alert.
- `LifeOS.App.Init`: models start-up as intended, assuming the database open resolves; as one step, so handlers that run while `init` waits for the database, between the PIN check and the daily reset, are not modelled.
- `LifeOS.App.constructor`: the timer display "25:00" before the first tick or reset comes from the page's markup, which is not part of this model; the constructor sets it to that text.
- `Records.PinAccepted`: JavaScript's `length` counts UTF-16 code units; the model counts characters.
- `router.go` on a view id that the page does not have fails in the DOM before counting; the model counts only by the id.

## Findings

| source | as written | input that shows it | evidently intended | confidence | as-written member | corrected member |
|---|---|---|---|---|---|---|
| script.js:259-263 | when the countdown reaches zero the interval is cleared, but `timerInterval` keeps its handle | start the timer with one `timer.toggle()` and let 1500 ticks pass; the next `timer.toggle()` only clears the stale handle and the timer stays stopped; a second toggle is needed to start it | clear the handle together with the interval (`timerInterval = null`), so that one toggle starts the next session | not executed; high | `FocusTimer.StaleHandleAsWritten` | `FocusTimer.CompletionKeepsSync` |
| script.js:286-307 | `vault.render` reads `db.transaction('files').readonly.objectStore(...)`; a transaction has no `readonly` member, so the success handler of `initDB` throws before `resolve()`, and `init` never resumes after `await app.vault.initDB()` | load the page on a day after `lastActive`, with water logged: the lock screen shows for a stored PIN, but water and focus time are not reset, `lastActive` is not updated and `adaptive.run` is not called | `db.transaction('files').objectStore('files')`, so that the promise resolves and start-up goes on to the daily reset and the first draw | not executed; high | `LifeOS.NewDayKeptAsWritten` | `LifeOS.App.Init` |

The class `App` keeps the behaviour as written, so that its handlers match
the page: its invariant only asks that the interval fires while a handle is
held, and `LifeOS.FinishedSessionNeedsTwoToggles` shows the extra toggle on
the class itself. The corrected completion and its property are proved on
the `FocusTimer` values. For start-up the class has both: `App.InitAsWritten`
stops after the PIN check as the page does, and `App.Init` is the start-up
that the code after the wait describes.
