/**
  The records kept in the state document (expenses, tasks, goals) and the
  pure rules about them: the running total of expenses, looking a task up by
  id, the PIN length rule and the budget alert threshold.  Amounts are whole
  cents.
 */
module Records {
  import opened Wrappers

  /** One expense; `id` is the creation timestamp, `date` its display date. */
  datatype Transaction = Transaction(id: int, amt: int, cat: string, date: string)

  /** One to-do item; `id` is the creation timestamp. */
  datatype Task = Task(id: int, txt: string, done: bool)

  datatype Goal = Goal(txt: string)

  /** The sum of the amounts of `ts`. */
  function Total(ts: seq<Transaction>): int
  {
    if ts == [] then 0 else ts[0].amt + Total(ts[1..])
  }

  /** `parseFloat(...)` followed by `if(!amt) return`: NaN and zero are refused. */
  predicate AcceptedAmount(amt: Option<int>)
  {
    amt.Some? && amt.value != 0
  }

  /**
    `items.find(x => x.id === id)`: the index of the first task with that id,
    or None when there is none.
   */
  function FindTask(items: seq<Task>, id: int): (r: Option<nat>)
    ensures r.Some? ==> r.value < |items| && items[r.value].id == id
    ensures r.Some? ==> forall j :: 0 <= j < r.value ==> items[j].id != id
    ensures r.None? <==> forall j :: 0 <= j < |items| ==> items[j].id != id
  {
    if items == [] then None
    else if items[0].id == id then Some(0)
    else match FindTask(items[1..], id)
      case None => None
      case Some(k) => Some(k + 1)
  }

  /** `t.done = !t.done` on the task at index `k`. */
  function Flip(items: seq<Task>, k: nat): (r: seq<Task>)
    requires k < |items|
    ensures |r| == |items|
    ensures r[k] == items[k].(done := !items[k].done)
    ensures forall j :: 0 <= j < |items| && j != k ==> r[j] == items[j]
  {
    items[k := items[k].(done := !items[k].done)]
  }

  /** Flipping the same task twice gives the list back. */
  lemma FlipTwice(items: seq<Task>, k: nat)
    requires k < |items|
    ensures Flip(Flip(items, k), k) == items
  {
  }

  /** Flipping keeps the ids, so the same task is found again afterwards. */
  lemma FlipKeepsLookup(items: seq<Task>, k: nat, id: int)
    requires k < |items|
    ensures FindTask(Flip(items, k), id) == FindTask(items, id)
  {
    var r := Flip(items, k);
    assert forall j :: 0 <= j < |items| ==> r[j].id == items[j].id;
  }

  /** `setPin` accepts a PIN of exactly four characters. */
  predicate PinAccepted(p: string)
  {
    |p| == 4
  }

  lemma ScaleByPositive(x: real, y: real, b: real)
    requires b > 0.0
    ensures x > y <==> x * b > y * b
  {
    assert x * b - y * b == (x - y) * b;
  }

  /** `pct > 80` with `pct = (spent / budget) * 100`, in integers. */
  lemma BudgetPercent(spent: int, budget: int)
    requires budget > 0
    ensures (spent as real / budget as real) * 100.0 > 80.0 <==> 100 * spent > 80 * budget
  {
    var b := budget as real;
    var pct := (spent as real / b) * 100.0;
    assert pct * b == spent as real * 100.0;
    ScaleByPositive(pct, 80.0, b);
    assert pct > 80.0 <==> spent as real * 100.0 > 80.0 * b;
    assert (100 * spent) as real == spent as real * 100.0;
    assert (80 * budget) as real == 80.0 * b;
  }

  /**
    The budget alert: `pct = (spent / budget) * 100` with `spent = budget -
    balance`, shown when `pct > 80`.  For a positive budget this is the
    integer test `100 * spent > 80 * budget`.
   */
  function OverBudget(budget: int, balance: int): (alert: bool)
    requires budget > 0
    ensures alert <==> ((budget - balance) as real / budget as real) * 100.0 > 80.0
  {
    var spent := budget - balance;
    BudgetPercent(spent, budget);
    100 * spent > 80 * budget
  }
}
