/**
  The adaptive dashboard engine: usage counters, the time-of-day mode and
  greeting, the usage score of each widget, the stable descending sort of the
  widgets and the priority mark on the first one.  Everything here is a pure
  function of the state document and the current hour.
 */
module Adaptive {

  /** The four dashboard widgets. */
  datatype Widget = FinanceWidget | TasksWidget | FocusWidget | WaterWidget

  /** The widgets in the order in which `run` declares them. */
  const AllWidgets: seq<Widget> := [FinanceWidget, TasksWidget, FocusWidget, WaterWidget]

  /** Position of a widget in the declared order. */
  function Rank(w: Widget): nat
  {
    match w
    case FinanceWidget => 0
    case TasksWidget => 1
    case FocusWidget => 2
    case WaterWidget => 3
  }

  // ---------------------------------------------------------------------------
  // Usage counters
  // ---------------------------------------------------------------------------

  /** The keys of `state.stats`; "lastActive" holds a timestamp, the others click counts. */
  const StatKeys: set<string> := {"finance", "tasks", "focus", "vault", "lastActive"}

  /** The counters the widget scores read. */
  predicate HasCounters(stats: map<string, int>)
  {
    "finance" in stats && "tasks" in stats && "focus" in stats
  }

  /**
    `adaptive.track`: a key that is present (any key, "lastActive" included)
    goes up by exactly one; every other entry, and the key set, stay as they
    were; an absent key changes nothing.
   */
  function Bump(stats: map<string, int>, key: string): (r: map<string, int>)
    ensures r.Keys == stats.Keys
    ensures key in stats ==> r[key] == stats[key] + 1
    ensures forall k :: k in stats && k != key ==> r[k] == stats[k]
    ensures key !in stats ==> r == stats
  {
    if key in stats then stats[key := stats[key] + 1] else stats
  }

  /** `adaptive.reset`: every counter back to zero, "lastActive" to the current time. */
  function ClearedStats(now: int): (r: map<string, int>)
    ensures r.Keys == StatKeys
    ensures forall k :: k in r && k != "lastActive" ==> r[k] == 0
    ensures r["lastActive"] == now
  {
    map["finance" := 0, "tasks" := 0, "focus" := 0, "vault" := 0, "lastActive" := now]
  }

  // ---------------------------------------------------------------------------
  // Time of day
  // ---------------------------------------------------------------------------

  datatype Mode = WorkMode | FinanceMode | WellnessMode

  /** The contextual mode for an hour of the day (0..23, from `getHours`). */
  function ModeAt(hour: int): (m: Mode)
    ensures m == WorkMode <==> 9 <= hour < 17
    ensures m == FinanceMode <==> 17 <= hour < 20
    ensures m == WellnessMode <==> hour < 9 || 20 <= hour
  {
    if 9 <= hour && hour < 17 then WorkMode
    else if 17 <= hour && hour < 20 then FinanceMode
    else WellnessMode
  }

  /** The text of the mode badge. */
  function ModeLabel(m: Mode): string
  {
    match m
    case WorkMode => "Work Mode"
    case FinanceMode => "Finance Mode"
    case WellnessMode => "Wellness Mode"
  }

  /** The `modeClass` variable: the finance window keeps the "wellness" class. The page computes it but never applies it. */
  function ModeClass(m: Mode): string
  {
    if m == WorkMode then "work" else "wellness"
  }

  /** The mode class is "work" exactly in the work window and "wellness" at every other hour. */
  lemma ModeClassRule(hour: int)
    ensures ModeClass(ModeAt(hour)) == "work" <==> 9 <= hour < 17
    ensures ModeClass(ModeAt(hour)) == "wellness" <==> !(9 <= hour < 17)
  {
  }

  /** The badge reads "Work Mode", "Finance Mode" or "Wellness Mode" in the three windows of the day. */
  lemma ModeLabelRule(hour: int)
    ensures ModeLabel(ModeAt(hour)) == "Work Mode" <==> 9 <= hour < 17
    ensures ModeLabel(ModeAt(hour)) == "Finance Mode" <==> 17 <= hour < 20
    ensures ModeLabel(ModeAt(hour)) == "Wellness Mode" <==> hour < 9 || 20 <= hour
  {
  }

  datatype Greeting = Morning | Afternoon | Evening

  /** The part of the day the greeting names. */
  function GreetingAt(hour: int): (g: Greeting)
    ensures g == Morning <==> hour < 12
    ensures g == Afternoon <==> 12 <= hour < 18
    ensures g == Evening <==> 18 <= hour
  {
    if hour < 12 then Morning else if hour < 18 then Afternoon else Evening
  }

  /** The greeting line. */
  function GreetingText(g: Greeting): string
  {
    match g
    case Morning => "Good Morning"
    case Afternoon => "Good Afternoon"
    case Evening => "Good Evening"
  }

  /** The greeting line reads Morning before noon, Afternoon until 18:00, Evening after. */
  lemma GreetingRule(hour: int)
    ensures GreetingText(GreetingAt(hour)) == "Good Morning" <==> hour < 12
    ensures GreetingText(GreetingAt(hour)) == "Good Afternoon" <==> 12 <= hour < 18
    ensures GreetingText(GreetingAt(hour)) == "Good Evening" <==> 18 <= hour
  {
  }

  // ---------------------------------------------------------------------------
  // Scores
  // ---------------------------------------------------------------------------

  /** The `score` of each entry of the `modules` list. */
  datatype Scores = Scores(finance: int, tasks: int, focus: int, water: int)

  /** Water intake below this many glasses boosts the hydration widget. */
  const LowWater := 4
  /** The fixed score of the hydration widget while intake is low. */
  const WaterBoost := 100

  /** Scores from the usage counters and today's water intake. */
  function UsageScores(stats: map<string, int>, water: int): Scores
    requires HasCounters(stats)
  {
    Scores(stats["finance"], stats["tasks"], stats["focus"], if water < LowWater then WaterBoost else 0)
  }

  function Score(sc: Scores, w: Widget): int
  {
    match w
    case FinanceWidget => sc.finance
    case TasksWidget => sc.tasks
    case FocusWidget => sc.focus
    case WaterWidget => sc.water
  }

  // ---------------------------------------------------------------------------
  // Ordering
  // ---------------------------------------------------------------------------

  /** Scores never go up along `s`. */
  ghost predicate NonIncreasing(sc: Scores, s: seq<Widget>)
  {
    forall i, j :: 0 <= i < j < |s| ==> Score(sc, s[i]) >= Score(sc, s[j])
  }

  /** Widgets with equal scores appear in the declared order. */
  ghost predicate TiesInDeclaredOrder(sc: Scores, s: seq<Widget>)
  {
    forall i, j :: 0 <= i < j < |s| && Score(sc, s[i]) == Score(sc, s[j]) ==> Rank(s[i]) < Rank(s[j])
  }

  /** `s` lists widgets in strictly increasing declared position. */
  ghost predicate DeclaredOrder(s: seq<Widget>)
  {
    forall i, j :: 0 <= i < j < |s| ==> Rank(s[i]) < Rank(s[j])
  }

  /** `a` goes before `b` in a stable descending sort of the declared list. */
  predicate Precedes(sc: Scores, a: Widget, b: Widget)
  {
    Score(sc, a) > Score(sc, b) || (Score(sc, a) == Score(sc, b) && Rank(a) < Rank(b))
  }

  ghost predicate Ordered(sc: Scores, s: seq<Widget>)
  {
    forall i, j :: 0 <= i < j < |s| ==> Precedes(sc, s[i], s[j])
  }

  /**
    One step of a stable sort with comparator `(a, b) => b.score - a.score`:
    `x` came before every element of `s`, so it goes in front of the first
    element whose score is not higher than its own.
   */
  function Insert(sc: Scores, x: Widget, s: seq<Widget>): seq<Widget>
  {
    if s == [] || Score(sc, s[0]) <= Score(sc, x) then [x] + s
    else [s[0]] + Insert(sc, x, s[1..])
  }

  /** `modules.sort((a, b) => b.score - a.score)`; `Array.prototype.sort` is stable. */
  function SortByScore(sc: Scores, s: seq<Widget>): seq<Widget>
  {
    if s == [] then [] else Insert(sc, s[0], SortByScore(sc, s[1..]))
  }

  lemma {:induction false} InsertPermutation(sc: Scores, x: Widget, s: seq<Widget>)
    ensures multiset(Insert(sc, x, s)) == multiset{x} + multiset(s)
  {
    if s != [] && Score(sc, s[0]) > Score(sc, x) {
      InsertPermutation(sc, x, s[1..]);
      assert s == [s[0]] + s[1..];
    }
  }

  /** The sorted list holds exactly the widgets it was given. */
  lemma {:induction false} SortPermutation(sc: Scores, s: seq<Widget>)
    ensures multiset(SortByScore(sc, s)) == multiset(s)
  {
    if s != [] {
      SortPermutation(sc, s[1..]);
      InsertPermutation(sc, s[0], SortByScore(sc, s[1..]));
      assert s == [s[0]] + s[1..];
    }
  }

  lemma {:induction false} InsertNonIncreasing(sc: Scores, x: Widget, s: seq<Widget>)
    requires NonIncreasing(sc, s)
    ensures NonIncreasing(sc, Insert(sc, x, s))
  {
    if s != [] && Score(sc, s[0]) > Score(sc, x) {
      InsertNonIncreasing(sc, x, s[1..]);
      InsertPermutation(sc, x, s[1..]);
      var r := Insert(sc, x, s[1..]);
      forall j | 0 <= j < |r| ensures Score(sc, s[0]) >= Score(sc, r[j]) {
        assert r[j] in multiset(r);
        if r[j] != x {
          assert r[j] in s[1..];
        }
      }
    }
  }

  /** Scores never go up along the sorted list. */
  lemma {:induction false} SortNonIncreasing(sc: Scores, s: seq<Widget>)
    ensures NonIncreasing(sc, SortByScore(sc, s))
  {
    if s != [] {
      SortNonIncreasing(sc, s[1..]);
      InsertNonIncreasing(sc, s[0], SortByScore(sc, s[1..]));
    }
  }

  /** Putting `y` in front keeps ties in declared order when `y` loses no tie to `r`. */
  lemma TiesCons(sc: Scores, y: Widget, r: seq<Widget>)
    requires TiesInDeclaredOrder(sc, r)
    requires forall j :: 0 <= j < |r| && Score(sc, y) == Score(sc, r[j]) ==> Rank(y) < Rank(r[j])
    ensures TiesInDeclaredOrder(sc, [y] + r)
  {
    var t := [y] + r;
    forall i, j | 0 <= i < j < |t| && Score(sc, t[i]) == Score(sc, t[j]) ensures Rank(t[i]) < Rank(t[j]) {
      if i == 0 {
        assert t[j] == r[j - 1];
      } else {
        assert t[i] == r[i - 1] && t[j] == r[j - 1];
      }
    }
  }

  lemma {:induction false} InsertStable(sc: Scores, x: Widget, s: seq<Widget>)
    requires TiesInDeclaredOrder(sc, s)
    requires forall y :: y in s ==> Rank(x) < Rank(y)
    ensures TiesInDeclaredOrder(sc, Insert(sc, x, s))
  {
    if s == [] || Score(sc, s[0]) <= Score(sc, x) {
      TiesCons(sc, x, s);
    } else {
      var tail := s[1..];
      assert TiesInDeclaredOrder(sc, tail) by {
        forall i, j | 0 <= i < j < |tail| && Score(sc, tail[i]) == Score(sc, tail[j])
          ensures Rank(tail[i]) < Rank(tail[j])
        {
          assert tail[i] == s[i + 1] && tail[j] == s[j + 1];
        }
      }
      InsertStable(sc, x, tail);
      InsertPermutation(sc, x, tail);
      var r := Insert(sc, x, tail);
      forall j | 0 <= j < |r| && Score(sc, s[0]) == Score(sc, r[j]) ensures Rank(s[0]) < Rank(r[j]) {
        assert r[j] in multiset(r);
        assert r[j] != x;
        assert r[j] in multiset(tail);
        var k :| 0 <= k < |tail| && tail[k] == r[j];
        assert s[k + 1] == r[j];
      }
      TiesCons(sc, s[0], r);
    }
  }

  /** Sorting a list given in declared order keeps tied widgets in declared order. */
  lemma {:induction false} SortStable(sc: Scores, s: seq<Widget>)
    requires DeclaredOrder(s)
    ensures TiesInDeclaredOrder(sc, SortByScore(sc, s))
  {
    if s != [] {
      SortStable(sc, s[1..]);
      SortPermutation(sc, s[1..]);
      var t := SortByScore(sc, s[1..]);
      forall y | y in t ensures Rank(s[0]) < Rank(y) {
        assert y in multiset(t);
        var k :| 0 <= k < |s[1..]| && s[1..][k] == y;
        assert s[1 + k] == y;
      }
      InsertStable(sc, s[0], t);
    }
  }

  /** Being ordered is exactly: scores non-increasing, ties in declared order. */
  lemma OrderedMeans(sc: Scores, s: seq<Widget>)
    ensures Ordered(sc, s) <==> NonIncreasing(sc, s) && TiesInDeclaredOrder(sc, s)
  {
  }

  /** Dropping the head of an ordered list leaves it ordered. */
  lemma OrderedTail(sc: Scores, s: seq<Widget>)
    requires s != [] && Ordered(sc, s)
    ensures Ordered(sc, s[1..])
  {
    forall i, j | 0 <= i < j < |s[1..]| ensures Precedes(sc, s[1..][i], s[1..][j]) {
      assert s[1..][i] == s[i + 1] && s[1..][j] == s[j + 1];
    }
  }

  /** The first element of an ordered list precedes every other element of it. */
  lemma FirstOfOrdered(sc: Scores, s: seq<Widget>, w: Widget)
    requires Ordered(sc, s)
    requires w in s
    requires forall v :: v in s && v != w ==> Precedes(sc, w, v)
    ensures s[0] == w
  {
    var k :| 0 <= k < |s| && s[k] == w;
    var first := s[0];
    assert first != w ==> Precedes(sc, w, first);
    assert k != 0 ==> Precedes(sc, first, s[k]);
  }

  /** An ordered list that is a permutation of another ordered list starts with the same element. */
  lemma SameHead(sc: Scores, a: seq<Widget>, b: seq<Widget>)
    requires a != [] && multiset(a) == multiset(b)
    requires Ordered(sc, a) && Ordered(sc, b)
    ensures b != [] && a[0] == b[0]
  {
    assert a[0] in multiset(b);
    forall v | v in b && v != a[0] ensures Precedes(sc, a[0], v) {
      assert v in multiset(a);
      var m :| 0 <= m < |a| && a[m] == v;
    }
    FirstOfOrdered(sc, b, a[0]);
  }

  /**
    Two ordered lists of the same widgets are equal, so every stable
    descending sort of the declared list yields one and the same order.
   */
  lemma {:induction false} OrderedUnique(sc: Scores, a: seq<Widget>, b: seq<Widget>)
    requires multiset(a) == multiset(b)
    requires Ordered(sc, a) && Ordered(sc, b)
    ensures a == b
  {
    if a == [] {
      assert |b| == |multiset(b)| == 0;
    } else {
      SameHead(sc, a, b);
      assert a == [a[0]] + a[1..];
      assert b == [b[0]] + b[1..];
      assert multiset(a[1..]) == multiset(a) - multiset{a[0]};
      assert multiset(b[1..]) == multiset(b) - multiset{b[0]};
      OrderedTail(sc, a);
      OrderedTail(sc, b);
      OrderedUnique(sc, a[1..], b[1..]);
    }
  }

  /** The sorted widget list. */
  function WidgetOrder(sc: Scores): seq<Widget>
  {
    SortByScore(sc, AllWidgets)
  }

  /** The widget order is a stable descending sort of the four widgets. */
  lemma WidgetOrderIsSorted(sc: Scores)
    ensures multiset(WidgetOrder(sc)) == multiset(AllWidgets)
    ensures |WidgetOrder(sc)| == 4
    ensures NonIncreasing(sc, WidgetOrder(sc))
    ensures TiesInDeclaredOrder(sc, WidgetOrder(sc))
    ensures Ordered(sc, WidgetOrder(sc))
  {
    SortPermutation(sc, AllWidgets);
    SortNonIncreasing(sc, AllWidgets);
    SortStable(sc, AllWidgets);
    assert |WidgetOrder(sc)| == |multiset(WidgetOrder(sc))|;
  }

  /** Any other stable descending sort of the four widgets gives the same order. */
  lemma WidgetOrderUnique(sc: Scores, other: seq<Widget>)
    requires multiset(other) == multiset(AllWidgets)
    requires NonIncreasing(sc, other) && TiesInDeclaredOrder(sc, other)
    ensures other == WidgetOrder(sc)
  {
    WidgetOrderIsSorted(sc);
    OrderedUnique(sc, other, WidgetOrder(sc));
  }

  // ---------------------------------------------------------------------------
  // Cards and the rendered dashboard
  // ---------------------------------------------------------------------------

  /** One widget as `forEach` emits it: its kind and whether it is the priority card. */
  datatype Card = Card(widget: Widget, priority: bool)

  function CardWidgets(cards: seq<Card>): seq<Widget>
  {
    seq(|cards|, i requires 0 <= i < |cards| => cards[i].widget)
  }

  /** `modules.forEach((mod, index) => ... index === 0 && adaptiveEnabled ...)`. */
  function Cards(order: seq<Widget>, adaptiveEnabled: bool): (cards: seq<Card>)
    ensures CardWidgets(cards) == order
  {
    seq(|order|, i requires 0 <= i < |order| => Card(order[i], i == 0 && adaptiveEnabled))
  }

  /** The number of cards marked priority. */
  function PriorityCount(cards: seq<Card>): nat
  {
    if cards == [] then 0 else (if cards[0].priority then 1 else 0) + PriorityCount(cards[1..])
  }

  lemma {:induction false} NoPriorityAfterFirst(cards: seq<Card>)
    requires forall i :: 0 <= i < |cards| ==> !cards[i].priority
    ensures PriorityCount(cards) == 0
  {
    if cards != [] {
      NoPriorityAfterFirst(cards[1..]);
    }
  }

  /**
    Exactly one card, the first, is marked priority when adaptive mode is on;
    none is when it is off.
   */
  lemma PriorityExactlyOne(order: seq<Widget>, adaptiveEnabled: bool)
    ensures var cards := Cards(order, adaptiveEnabled);
      && PriorityCount(cards) == (if adaptiveEnabled && order != [] then 1 else 0)
      && forall i :: 0 <= i < |cards| ==> (cards[i].priority <==> i == 0 && adaptiveEnabled)
  {
    var cards := Cards(order, adaptiveEnabled);
    if cards != [] {
      NoPriorityAfterFirst(cards[1..]);
    }
  }

  /** What `run` writes to the page. */
  datatype Dashboard = Dashboard(
    mode: Mode,          // the badge shows ModeLabel(mode); ModeClass(mode) is computed but never applied
    greeting: Greeting,  // shown as GreetingText(greeting)
    cards: seq<Card>,
    locked: bool)        // the lock button shows the closed padlock

  /** `adaptive.run` for the given state and hour. */
  function Render(stats: map<string, int>, water: int, adaptiveEnabled: bool, layoutLocked: bool,
                  hour: int): Dashboard
    requires HasCounters(stats)
  {
    Dashboard(ModeAt(hour), GreetingAt(hour),
              Cards(WidgetOrder(UsageScores(stats, water)), adaptiveEnabled), layoutLocked)
  }

  /**
    The rendered dashboard shows each of the four widgets exactly once, with
    scores non-increasing and ties in declared order, the priority mark on the
    first card exactly when adaptive mode is on, and the mode and greeting of
    the hour.
   */
  lemma RenderSpec(stats: map<string, int>, water: int, adaptiveEnabled: bool, layoutLocked: bool,
                   hour: int)
    requires HasCounters(stats)
    ensures var d := Render(stats, water, adaptiveEnabled, layoutLocked, hour);
      var sc := UsageScores(stats, water);
      && multiset(CardWidgets(d.cards)) == multiset(AllWidgets)
      && |d.cards| == 4
      && NonIncreasing(sc, CardWidgets(d.cards))
      && TiesInDeclaredOrder(sc, CardWidgets(d.cards))
      && PriorityCount(d.cards) == (if adaptiveEnabled then 1 else 0)
      && (forall i :: 0 <= i < |d.cards| ==> (d.cards[i].priority <==> i == 0 && adaptiveEnabled))
      && d.mode == ModeAt(hour)
      && d.greeting == GreetingAt(hour)
      && d.locked == layoutLocked
  {
    var sc := UsageScores(stats, water);
    WidgetOrderIsSorted(sc);
    PriorityExactlyOne(WidgetOrder(sc), adaptiveEnabled);
  }

  /** The water score is the boost exactly while intake is low. */
  lemma WaterScoreRule(stats: map<string, int>, water: int)
    requires HasCounters(stats)
    ensures Score(UsageScores(stats, water), WaterWidget) == (if water < 4 then 100 else 0)
  {
  }

  /**
    While fewer than four glasses are logged and no counter has reached the
    boost, the hydration widget comes first (and is the priority card when
    adaptive mode is on).
   */
  lemma WaterFirstWhenLow(stats: map<string, int>, water: int, adaptiveEnabled: bool,
                          layoutLocked: bool, hour: int)
    requires HasCounters(stats)
    requires water < LowWater
    requires stats["finance"] < WaterBoost && stats["tasks"] < WaterBoost && stats["focus"] < WaterBoost
    ensures var d := Render(stats, water, adaptiveEnabled, layoutLocked, hour);
      |d.cards| == 4 && d.cards[0].widget == WaterWidget && (d.cards[0].priority <==> adaptiveEnabled)
  {
    var sc := UsageScores(stats, water);
    var order := WidgetOrder(sc);
    WidgetOrderIsSorted(sc);
    assert WaterWidget in multiset(order);
    forall v | v in order && v != WaterWidget ensures Precedes(sc, WaterWidget, v) {
    }
    FirstOfOrdered(sc, order, WaterWidget);
    PriorityExactlyOne(order, adaptiveEnabled);
  }

  /** The last element of an ordered list is preceded by every other element of it. */
  lemma LastOfOrdered(sc: Scores, s: seq<Widget>, w: Widget)
    requires Ordered(sc, s)
    requires w in s
    requires forall v :: v in s && v != w ==> Precedes(sc, v, w)
    ensures s[|s| - 1] == w
  {
    var k :| 0 <= k < |s| && s[k] == w;
    var last := s[|s| - 1];
    assert last != w ==> Precedes(sc, last, w);
    assert k != |s| - 1 ==> Precedes(sc, s[k], last);
  }

  /**
    Once four glasses are logged the hydration widget scores 0 and, as long as
    no counter is negative, it is the last card.
   */
  lemma WaterLastWhenMet(stats: map<string, int>, water: int, adaptiveEnabled: bool,
                         layoutLocked: bool, hour: int)
    requires HasCounters(stats)
    requires water >= LowWater
    requires stats["finance"] >= 0 && stats["tasks"] >= 0 && stats["focus"] >= 0
    ensures var d := Render(stats, water, adaptiveEnabled, layoutLocked, hour);
      |d.cards| == 4 && d.cards[3].widget == WaterWidget && !d.cards[3].priority
  {
    var sc := UsageScores(stats, water);
    var order := WidgetOrder(sc);
    WidgetOrderIsSorted(sc);
    assert WaterWidget in multiset(order);
    forall v | v in order && v != WaterWidget ensures Precedes(sc, v, WaterWidget) {
    }
    LastOfOrdered(sc, order, WaterWidget);
    PriorityExactlyOne(order, adaptiveEnabled);
  }
}
