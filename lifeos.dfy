/**
  The application object and the state document it mutates in place.  Each
  method is one handler of the page: it changes the fields its `modifies`
  names and says exactly what they hold afterwards.  The clock is an input:
  `hour` is the local hour of day, `now` a timestamp in milliseconds, and
  `utcOffset` the local zone's offset from UTC in milliseconds.  What the page shows is kept in three
  fields: the rendered dashboard, the timer display and the lock screen.
 */
module LifeOS {
  import opened Wrappers
  import opened Adaptive
  import opened Records
  import opened FocusTimer

  /** The initial budget: $2000, that is 200000 cents. */
  const InitialBudget := 200000

  const MsPerDay := 86_400_000

  /**
    The local calendar day of a timestamp in milliseconds, for a zone
    `utcOffset` milliseconds ahead of UTC: two timestamps have the same
    `toDateString` exactly when they have the same local day.
   */
  function LocalDay(ts: int, utcOffset: int): int
  {
    (ts + utcOffset) / MsPerDay
  }

  /**
    `router.go` counts a visit to the finance, tasks and focus views under the
    counter whose name is the view id without its "view-" prefix; other views
    count nothing.
   */
  function TrackedModule(viewId: string): (m: Option<string>)
    ensures m.Some? ==> m.value in StatKeys && viewId == "view-" + m.value
    ensures m.Some? <==> viewId == "view-finance" || viewId == "view-tasks" || viewId == "view-focus"
  {
    if viewId == "view-finance" then Some("finance")
    else if viewId == "view-tasks" then Some("tasks")
    else if viewId == "view-focus" then Some("focus")
    else None
  }

  class App {
    // state.user
    var name: string
    var theme: string
    var pin: Option<string>
    var layoutLocked: bool
    var adaptiveEnabled: bool
    // state.finance, in cents
    var balance: int
    var budget: int
    var transactions: seq<Transaction>
    // state.tasks
    var items: seq<Task>
    var goals: seq<Goal>
    // state.health
    var water: nat
    var focusTime: nat
    // state.stats
    var stats: map<string, int>
    // the timer globals beside the state document
    var timerSeconds: int
    var interval: Interval
    // what the page shows
    var timerDisplay: string
    var dashboard: Option<Dashboard>
    var lockScreen: bool

    /**
      The invariant every handler keeps: the counters are the five keys of
      the initial document, the balance is minus the sum of the expenses, a
      stored PIN has four characters, the countdown is within a session and
      the interval fires only while its handle is held.
     */
    ghost predicate Valid()
      reads this
    {
      && stats.Keys == StatKeys
      && budget > 0
      && balance + Total(transactions) == 0
      && (pin.Some? ==> PinAccepted(pin.value))
      && 1 <= timerSeconds <= SessionSeconds
      && Covered(interval)
    }

    /** The initial state document, with "lastActive" set to `now`. */
    constructor (now: int)
      ensures Valid()
      ensures name == "User" && theme == "light" && pin == None
      ensures !layoutLocked && adaptiveEnabled
      ensures balance == 0 && budget == InitialBudget && transactions == []
      ensures items == [] && goals == []
      ensures water == 0 && focusTime == 0
      ensures stats == ClearedStats(now)
      ensures timerSeconds == SessionSeconds && interval == Idle
      ensures timerDisplay == "25:00" && dashboard == None && !lockScreen
    {
      name, theme, pin := "User", "light", None;
      layoutLocked, adaptiveEnabled := false, true;
      balance, budget, transactions := 0, InitialBudget, [];
      items, goals := [], [];
      water, focusTime := 0, 0;
      stats := ClearedStats(now);
      timerSeconds, interval := SessionSeconds, Idle;
      timerDisplay, dashboard, lockScreen := "25:00", None, false;
    }

    /** The dashboard `adaptive.run` would draw now. */
    function View(hour: int): Dashboard
      reads this
      requires Valid()
    {
      Render(stats, water, adaptiveEnabled, layoutLocked, hour)
    }

    // -------------------------------------------------------------------------
    // Adaptive engine
    // -------------------------------------------------------------------------

    /** `adaptive.run`: redraw the dashboard. */
    method Run(hour: int)
      requires Valid()
      modifies this`dashboard
      ensures Valid()
      ensures dashboard == Some(View(hour))
    {
      dashboard := Some(Render(stats, water, adaptiveEnabled, layoutLocked, hour));
    }

    /**
      `adaptive.track`: bump a present counter, and redraw only when the
      layout is unlocked and adaptive mode is on; an absent key changes nothing.
     */
    method Track(key: string, hour: int)
      requires Valid()
      modifies this`stats, this`dashboard
      ensures Valid()
      ensures stats == Bump(old(stats), key)
      ensures dashboard == if key in old(stats) && !layoutLocked && adaptiveEnabled
                           then Some(View(hour)) else old(dashboard)
    {
      if key in stats {
        stats := stats[key := stats[key] + 1];
        if !layoutLocked && adaptiveEnabled {
          Run(hour);
        }
      }
    }

    /** `adaptive.toggleLayoutLock`: flip the lock and redraw. */
    method ToggleLayoutLock(hour: int)
      requires Valid()
      modifies this`layoutLocked, this`dashboard
      ensures Valid()
      ensures layoutLocked == !old(layoutLocked)
      ensures dashboard == Some(View(hour))
    {
      layoutLocked := !layoutLocked;
      Run(hour);
    }

    /** `adaptive.toggleConfig`: set adaptive mode and redraw. */
    method ToggleConfig(val: bool, hour: int)
      requires Valid()
      modifies this`adaptiveEnabled, this`dashboard
      ensures Valid()
      ensures adaptiveEnabled == val
      ensures dashboard == Some(View(hour))
    {
      adaptiveEnabled := val;
      Run(hour);
    }

    /** `adaptive.reset`: clear the counters and redraw. */
    method ResetStats(now: int, hour: int)
      requires Valid()
      modifies this`stats, this`dashboard
      ensures Valid()
      ensures stats == ClearedStats(now)
      ensures dashboard == Some(View(hour))
    {
      stats := ClearedStats(now);
      Run(hour);
    }

    /** `router.go`, the counting part: a visit to a tracked view is a `track`. */
    method Go(viewId: string, hour: int)
      requires Valid()
      modifies this`stats, this`dashboard
      ensures Valid()
      ensures stats == match TrackedModule(viewId)
                       case Some(m) => Bump(old(stats), m)
                       case None => old(stats)
      ensures dashboard == if TrackedModule(viewId).Some? && !layoutLocked && adaptiveEnabled
                           then Some(View(hour)) else old(dashboard)
    {
      if viewId == "view-finance" {
        Track("finance", hour);
      }
      if viewId == "view-tasks" {
        Track("tasks", hour);
      }
      if viewId == "view-focus" {
        Track("focus", hour);
      }
    }

    // -------------------------------------------------------------------------
    // Finance, tasks, goals, hydration
    // -------------------------------------------------------------------------

    /**
      `finance.add`: a non-zero amount is recorded in front of the list and
      taken off the balance; zero and NaN leave everything as it was.
     */
    method AddExpense(amt: Option<int>, cat: string, id: int, date: string)
      requires Valid()
      modifies this`transactions, this`balance
      ensures Valid()
      ensures AcceptedAmount(amt) ==> transactions == [Transaction(id, amt.value, cat, date)] + old(transactions)
                                      && balance == old(balance) - amt.value
      ensures !AcceptedAmount(amt) ==> transactions == old(transactions) && balance == old(balance)
    {
      if !AcceptedAmount(amt) {
        return;
      }
      var t := Transaction(id, amt.value, cat, date);
      assert ([t] + transactions)[1..] == transactions;
      transactions := [t] + transactions;
      balance := balance - amt.value;
    }

    /** `tasks.add`: non-empty text is appended as an open task. */
    method AddTask(txt: string, id: int)
      requires Valid()
      modifies this`items
      ensures Valid()
      ensures txt != "" ==> items == old(items) + [Task(id, txt, false)]
      ensures txt == "" ==> items == old(items)
    {
      if txt == "" {
        return;
      }
      items := items + [Task(id, txt, false)];
    }

    /** `tasks.addGoal`: a cancelled or empty prompt adds nothing. */
    method AddGoal(txt: Option<string>)
      requires Valid()
      modifies this`goals
      ensures Valid()
      ensures txt.Some? && txt.value != "" ==> goals == old(goals) + [Goal(txt.value)]
      ensures !(txt.Some? && txt.value != "") ==> goals == old(goals)
    {
      if txt.Some? && txt.value != "" {
        goals := goals + [Goal(txt.value)];
      }
    }

    /**
      `tasks.toggle`: flip `done` on the first task with this id.  When there
      is none the handler fails before changing anything; `found` says which.
     */
    method ToggleTask(id: int) returns (found: bool)
      requires Valid()
      modifies this`items
      ensures Valid()
      ensures found <==> FindTask(old(items), id).Some?
      ensures found ==> items == Flip(old(items), FindTask(old(items), id).value)
      ensures !found ==> items == old(items)
    {
      match FindTask(items, id)
      case None =>
        found := false;
      case Some(k) =>
        items := Flip(items, k);
        found := true;
    }

    /** `health.addWater`: one more glass, then redraw. */
    method AddWater(hour: int)
      requires Valid()
      modifies this`water, this`dashboard
      ensures Valid()
      ensures water == old(water) + 1
      ensures dashboard == Some(View(hour))
    {
      water := water + 1;
      Run(hour);
    }

    // -------------------------------------------------------------------------
    // Focus timer
    // -------------------------------------------------------------------------

    /** `timer.toggle`: start the one-second interval, or clear the one that is held. */
    method TimerToggle()
      requires Valid()
      modifies this`interval
      ensures Valid()
      ensures interval == ToggleInterval(old(interval))
      ensures interval.ticking <==> !old(interval.handle)
    {
      if interval.handle {
        interval := Idle;
      } else {
        interval := Interval(true, true);
      }
    }

    /**
      One call of the interval callback: count down and show `mm:ss`; when the
      count reaches zero, stop the interval, credit 25 minutes, start the count
      again and redraw the dashboard. As in the page, the handle is kept when
      the interval stops.
     */
    method TimerTick(hour: int)
      requires Valid() && interval.ticking
      modifies this`timerSeconds, this`focusTime, this`interval, this`timerDisplay, this`dashboard
      ensures Valid()
      ensures Count(timerSeconds, focusTime) == Advance(Count(old(timerSeconds), old(focusTime)))
      ensures timerDisplay == Clock(old(timerSeconds) - 1)
      ensures Completes(Count(old(timerSeconds), old(focusTime))) ==>
                interval == StopAtCompletionAsWritten(old(interval)) && dashboard == Some(View(hour))
      ensures !Completes(Count(old(timerSeconds), old(focusTime))) ==>
                interval == old(interval) && dashboard == old(dashboard)
    {
      timerDisplay := Clock(timerSeconds - 1);
      timerSeconds := timerSeconds - 1;
      if timerSeconds <= 0 {
        interval := StopAtCompletionAsWritten(interval);
        focusTime := focusTime + SessionMinutes;
        timerSeconds := SessionSeconds;
        Run(hour);
      }
    }

    /** `timer.reset`: clear the interval and show a fresh session. */
    method TimerReset()
      requires Valid()
      modifies this`interval, this`timerSeconds, this`timerDisplay
      ensures Valid()
      ensures interval == Idle && timerSeconds == SessionSeconds
      ensures timerDisplay == Clock(SessionSeconds)
    {
      interval := Idle;
      timerSeconds := SessionSeconds;
      timerDisplay := "25:00";
      FreshSessionDisplay();
    }

    // -------------------------------------------------------------------------
    // Security
    // -------------------------------------------------------------------------

    /** `security.setPin`: only a four-character PIN is stored. */
    method SetPin(p: string)
      requires Valid()
      modifies this`pin
      ensures Valid()
      ensures pin == if PinAccepted(p) then Some(p) else old(pin)
    {
      if PinAccepted(p) {
        pin := Some(p);
      }
    }

    /** `security.check`: a stored (non-empty) PIN shows the lock screen. */
    method CheckLock()
      requires Valid()
      modifies this`lockScreen
      ensures Valid()
      ensures lockScreen == (old(lockScreen) || (pin.Some? && pin.value != ""))
    {
      if pin.Some? && pin.value != "" {
        lockScreen := true;
      }
    }

    /** `security.unlock`: only the exact stored PIN hides the lock screen. */
    method Unlock(entered: string) returns (ok: bool)
      requires Valid()
      modifies this`lockScreen
      ensures Valid()
      ensures ok <==> pin == Some(entered)
      ensures lockScreen == if ok then false else old(lockScreen)
    {
      ok := pin.Some? && entered == pin.value;
      if ok {
        lockScreen := false;
      }
    }

    // -------------------------------------------------------------------------
    // Start-up
    // -------------------------------------------------------------------------

    /**
      The daily part of `app.init`: zero water and focus time when the last
      active day is not today, then record the current time as "lastActive".
     */
    method StartDay(now: int, utcOffset: int)
      requires Valid()
      modifies this`water, this`focusTime, this`stats
      ensures Valid()
      ensures LocalDay(old(stats)["lastActive"], utcOffset) != LocalDay(now, utcOffset) ==>
                water == 0 && focusTime == 0
      ensures LocalDay(old(stats)["lastActive"], utcOffset) == LocalDay(now, utcOffset) ==>
                water == old(water) && focusTime == old(focusTime)
      ensures stats == old(stats)["lastActive" := now]
    {
      if LocalDay(stats["lastActive"], utcOffset) != LocalDay(now, utcOffset) {
        water := 0;
        focusTime := 0;
      }
      stats := stats["lastActive" := now];
    }

    /**
      `app.init` as written: the lock screen is shown for a stored PIN, and
      then the wait for the file database never ends, because the success
      handler of the database open throws in `vault.render` before it
      resolves. The daily reset, the "lastActive" update and the first draw
      are never reached.
     */
    method InitAsWritten()
      requires Valid()
      modifies this`lockScreen
      ensures Valid()
      ensures lockScreen == (old(lockScreen) || (pin.Some? && pin.value != ""))
      ensures water == old(water) && focusTime == old(focusTime)
      ensures stats == old(stats) && dashboard == old(dashboard)
    {
      CheckLock();
    }

    /**
      `app.init` as intended, once the database is open: show the lock
      screen for a stored PIN, start the day and draw the dashboard.
     */
    method Init(now: int, utcOffset: int, hour: int)
      requires Valid()
      modifies this`lockScreen, this`water, this`focusTime, this`stats, this`dashboard
      ensures Valid()
      ensures lockScreen == (old(lockScreen) || (pin.Some? && pin.value != ""))
      ensures LocalDay(old(stats)["lastActive"], utcOffset) != LocalDay(now, utcOffset) ==>
                water == 0 && focusTime == 0
      ensures LocalDay(old(stats)["lastActive"], utcOffset) == LocalDay(now, utcOffset) ==>
                water == old(water) && focusTime == old(focusTime)
      ensures stats == old(stats)["lastActive" := now]
      ensures dashboard == Some(View(hour))
    {
      CheckLock();
      StartDay(now, utcOffset);
      Run(hour);
    }
  }

  /** Toggling the layout lock twice restores it. */
  method LockTwiceRestores(app: App, hour: int)
    requires app.Valid()
    modifies app`layoutLocked, app`dashboard
    ensures app.Valid()
    ensures app.layoutLocked == old(app.layoutLocked)
    ensures app.stats == old(app.stats) && app.water == old(app.water)
    ensures app.dashboard == Some(app.View(hour))
  {
    app.ToggleLayoutLock(hour);
    app.ToggleLayoutLock(hour);
  }

  /** Toggling a task twice leaves the task list as it was. */
  method ToggleTwiceRestores(app: App, id: int)
    requires app.Valid()
    modifies app`items
    ensures app.Valid()
    ensures app.items == old(app.items)
  {
    var found := app.ToggleTask(id);
    var again := app.ToggleTask(id);
    if found {
      FlipKeepsLookup(old(app.items), FindTask(old(app.items), id).value, id);
      FlipTwice(old(app.items), FindTask(old(app.items), id).value);
    }
  }

  /**
    The last tick of a session started with one toggle leaves the handle held:
    the next toggle only clears it and the timer stays stopped; a second
    toggle starts it.
   */
  method FinishedSessionNeedsTwoToggles(app: App, hour: int) returns (afterOne: bool, afterTwo: bool)
    requires app.Valid() && app.interval.ticking && app.timerSeconds == 1
    modifies app`timerSeconds, app`focusTime, app`interval, app`timerDisplay, app`dashboard
    ensures app.Valid()
    ensures app.timerSeconds == SessionSeconds && app.focusTime == old(app.focusTime) + SessionMinutes
    ensures !afterOne && afterTwo
  {
    app.TimerTick(hour);
    app.TimerToggle();
    afterOne := app.interval.ticking;
    app.TimerToggle();
    afterTwo := app.interval.ticking;
  }

  /**
    As written, a start-up on a new day keeps the water and focus time of the
    last active day, and the dashboard is not drawn.
   */
  method NewDayKeptAsWritten(app: App, now: int, utcOffset: int)
    requires app.Valid() && app.dashboard == None && app.water > 0
    requires LocalDay(app.stats["lastActive"], utcOffset) != LocalDay(now, utcOffset)
    modifies app`lockScreen
    ensures app.water > 0 && app.dashboard == None
    ensures LocalDay(app.stats["lastActive"], utcOffset) != LocalDay(now, utcOffset)
  {
    app.InitAsWritten();
  }
}
