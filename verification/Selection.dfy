/** Task control blocks and the choice of the task that runs next. */
module Selection {
  datatype Option<+T> = None | Some(value: T)

  datatype TaskState = Ready | Running | Blocked

  /** One `task_t`. The last two fields are auxiliary: `on` names the wait list the
      task is linked into (the C code only has the links themselves), and `stamp`
      is the serial number of its latest enqueue. */
  datatype Tcb = Tcb(
    state: TaskState,
    prio: nat,
    delay: nat,
    head: Option<nat>,
    timedOut: bool,
    on: Option<nat>,
    stamp: nat)

  /** `best` starts at 0xFF, so a READY task of priority 0xFF is never chosen. */
  const NO_PRIO: nat := 0xFF

  predicate IsReady(tasks: seq<Tcb>, i: int)
  {
    0 <= i < |tasks| - 1 && tasks[i].state.Ready?
  }

  /** READY and strictly better than "no priority". */
  predicate Eligible(tasks: seq<Tcb>, i: int)
  {
    IsReady(tasks, i) && tasks[i].prio < NO_PRIO
  }

  /** First loop of `sched_select_next`: the best READY priority below index `n`
      and the first task that has it (the idle task, last in `tasks`, if none). */
  function BestOf(tasks: seq<Tcb>, n: nat): (r: (nat, nat))
    requires n < |tasks|
    ensures r.0 <= NO_PRIO && (r.1 < n || r.1 == |tasks| - 1)
    ensures r.1 < n <==> exists i :: i < n && Eligible(tasks, i)
    ensures r.1 < n ==> Eligible(tasks, r.1) && tasks[r.1].prio == r.0
    ensures r.1 == |tasks| - 1 ==> r.0 == NO_PRIO
    ensures forall i :: i < n && Eligible(tasks, i) ==> r.0 <= tasks[i].prio
    ensures forall i :: i < r.1 && i < n && Eligible(tasks, i) ==> r.0 < tasks[i].prio
  {
    if n == 0 then (NO_PRIO, |tasks| - 1)
    else
      var r := BestOf(tasks, n - 1);
      if tasks[n - 1].state.Ready? && tasks[n - 1].prio < r.0
      then
        assert Eligible(tasks, n - 1);
        (tasks[n - 1].prio, n - 1)
      else r
  }

  /** `(start + k) % s_task_count`. */
  function Cyclic(n: nat, start: nat, k: nat): (i: nat)
    requires start < n && k <= n
    ensures i < n
  {
    (start + k) % n
  }

  /** Second loop: the first READY task of priority `best` at cyclic distance
      `k`, `k + 1`, ..., `n - 1` after `start`; `chosen` if there is none. */
  function ScanFrom(tasks: seq<Tcb>, best: nat, start: nat, k: nat, chosen: nat): (c: nat)
    requires start < |tasks| - 1 && 1 <= k && chosen < |tasks|
    ensures c < |tasks|
    decreases |tasks| - k
  {
    var n := |tasks| - 1;
    if k >= n then chosen
    else
      var idx := Cyclic(n, start, k);
      if tasks[idx].state.Ready? && tasks[idx].prio == best then idx
      else ScanFrom(tasks, best, start, k + 1, chosen)
  }

  /** The index the cyclic scan starts from: 0 when the idle task is current. */
  function StartOf(tasks: seq<Tcb>, current: nat): nat
  {
    if current < |tasks| - 1 then current else 0
  }

  /** `sched_select_next`. */
  function Select(tasks: seq<Tcb>, current: nat): (c: nat)
    requires |tasks| > 0 && current < |tasks|
    ensures c < |tasks|
  {
    var r := BestOf(tasks, |tasks| - 1);
    if r.1 == |tasks| - 1 then r.1
    else ScanFrom(tasks, r.0, StartOf(tasks, current), 1, r.1)
  }

  /** Cyclic distance from `c` to `i`, between 1 and `n`: `c` itself is the farthest. */
  function Distance(n: nat, c: nat, i: nat): (d: nat)
    requires c < n && i < n
    ensures 1 <= d <= n
  {
    if i > c then i - c else i + n - c
  }

  /** Independent definition of the choice: a READY task of the best READY priority,
      and among those the nearest one after the current task (after task 0 if that is idle). */
  ghost predicate IsChoice(tasks: seq<Tcb>, current: nat, c: nat)
    requires |tasks| > 0
  {
    var n := |tasks| - 1;
    var start := if current < n then current else 0;
    if exists i :: Eligible(tasks, i) then
      && Eligible(tasks, c)
      && (forall i :: Eligible(tasks, i) ==> tasks[c].prio <= tasks[i].prio)
      && (forall i :: Eligible(tasks, i) && tasks[i].prio == tasks[c].prio
            ==> Distance(n, start, c) <= Distance(n, start, i))
    else c == n
  }

  lemma CyclicDistance(n: nat, start: nat, k: nat)
    requires start < n && 1 <= k <= n
    ensures Distance(n, start, Cyclic(n, start, k)) == k
  {
    if start + k < n {
      assert (start + k) % n == start + k;
    } else {
      assert (start + k) % n == start + k - n;
    }
  }

  lemma DistanceCyclic(n: nat, start: nat, i: nat)
    requires start < n && i < n
    ensures Cyclic(n, start, Distance(n, start, i)) == i
  {
    if i <= start {
      assert (i + n) % n == i;
    }
  }

  /** The scan finds the nearest task of priority `best`, if some task at distance
      at least `k` has it. */
  lemma {:induction false} ScanNearest(tasks: seq<Tcb>, best: nat, start: nat, k: nat, chosen: nat)
    requires start < |tasks| - 1 && 1 <= k <= |tasks| - 1
    requires IsReady(tasks, chosen) && tasks[chosen].prio == best
    requires forall i :: IsReady(tasks, i) && tasks[i].prio == best ==> Distance(|tasks| - 1, start, i) >= k
    ensures var c := ScanFrom(tasks, best, start, k, chosen);
      && IsReady(tasks, c) && tasks[c].prio == best
      && forall i :: IsReady(tasks, i) && tasks[i].prio == best
           ==> Distance(|tasks| - 1, start, c) <= Distance(|tasks| - 1, start, i)
    decreases |tasks| - k
  {
    var n := |tasks| - 1;
    if k < n {
      var idx := Cyclic(n, start, k);
      CyclicDistance(n, start, k);
      if !(tasks[idx].state.Ready? && tasks[idx].prio == best) {
        forall i | IsReady(tasks, i) && tasks[i].prio == best
          ensures Distance(n, start, i) >= k + 1
        {
          DistanceCyclic(n, start, i);
        }
        ScanNearest(tasks, best, start, k + 1, chosen);
      }
    }
  }

  lemma ChoiceUnique(tasks: seq<Tcb>, current: nat, c: nat, d: nat)
    requires |tasks| > 0
    requires IsChoice(tasks, current, c) && IsChoice(tasks, current, d)
    ensures c == d
  {
    var n := |tasks| - 1;
    if exists i :: Eligible(tasks, i) {
      DistanceCyclic(n, StartOf(tasks, current), c);
      DistanceCyclic(n, StartOf(tasks, current), d);
    }
  }

  /** The two loops compute exactly the choice defined by `IsChoice`. */
  lemma SelectIsChoice(tasks: seq<Tcb>, current: nat)
    requires |tasks| > 0 && current < |tasks|
    ensures IsChoice(tasks, current, Select(tasks, current))
  {
    var n := |tasks| - 1;
    var r := BestOf(tasks, n);
    if r.1 != n {
      assert Eligible(tasks, r.1);
      var start := StartOf(tasks, current);
      ScanNearest(tasks, r.0, start, 1, r.1);
      var c := Select(tasks, current);
      forall i | Eligible(tasks, i) ensures tasks[c].prio <= tasks[i].prio { }
    }
  }
}
