/** The shared scheduler state and the operations that every primitive is built from.
    Each function is one piece of a critical section of scheduler.c. */
module Kernel {
  import opened Selection
  import opened WaitQueue

  /** `tasks` is `s_tasks` followed by the idle task; `lists` are the wait lists of all
      primitives; `clock` (auxiliary) counts enqueues. */
  datatype State = State(
    tasks: seq<Tcb>,
    lists: seq<seq<nat>>,
    current: nat,
    next: nat,
    clock: nat)

  function Idle(k: State): int {
    |k.tasks| - 1
  }

  predicate Bounds(k: State) {
    |k.tasks| > 0 && k.current < |k.tasks| && k.next < |k.tasks|
  }

  // ---- Invariants ----

  /** What the links of list `l` are: a duplicate-free list of tasks, all on `l`. */
  ghost predicate ListOk(k: State, l: int)
    requires 0 <= l < |k.lists|
  {
    && (forall i :: 0 <= i < |k.lists[l]| ==>
          k.lists[l][i] < |k.tasks| - 1 && k.tasks[k.lists[l][i]].on == Some(l))
    && Distinct(k.lists[l])
  }

  /** A linked task is blocked, on one list only, and a timed one names that list in
      `head`; a task that is not blocked has no running delay. */
  ghost predicate TaskOk(k: State, t: int)
    requires 0 <= t < |k.tasks|
  {
    var x := k.tasks[t];
    && (x.head.Some? ==> x.head.value < |k.lists|)
    && (!x.state.Blocked? ==> x.delay == 0)
    && (x.on.Some? ==>
          && x.on.value < |k.lists|
          && t in k.lists[x.on.value]
          && x.state.Blocked?
          && (x.delay > 0 ==> x.head == x.on))
    && x.prio < NO_PRIO
    && (t == |k.tasks| - 1 ==> !x.state.Blocked?)
  }

  /** Wait-list integrity. */
  ghost predicate Linked(k: State) {
    && Bounds(k)
    && (forall l :: 0 <= l < |k.lists| ==> ListOk(k, l))
    && (forall t :: 0 <= t < |k.tasks| ==> TaskOk(k, t))
  }

  /** The one RUNNING task is the chosen one, delivered or not. */
  ghost predicate OneRunning(k: State) {
    forall t :: 0 <= t < |k.tasks| ==> (k.tasks[t].state.Running? <==> t == k.next)
  }

  ghost predicate Inv(k: State) {
    Linked(k) && OneRunning(k)
  }

  /** List `l` is in priority order, first come first served among equals, and the next
      enqueue gets a later stamp than any before. */
  ghost predicate Sorted(k: State, l: nat) {
    && (l < |k.lists| ==> InRange(k.lists[l], |k.tasks|) && Ordered(k.tasks, k.lists[l]))
    && (forall t :: 0 <= t < |k.tasks| ==> k.tasks[t].stamp < k.clock)
  }

  /** Every list that was in order still is. */
  ghost predicate KeepsOrder(k: State, r: State) {
    forall l: nat :: Sorted(k, l) ==> Sorted(r, l)
  }

  /** `next` is a best READY task: the idle task only when nothing is READY. */
  ghost predicate Decided(k: State)
    requires Bounds(k)
  {
    forall t :: IsReady(k.tasks, t) ==> k.next != Idle(k) && k.tasks[k.next].prio <= k.tasks[t].prio
  }

  // ---- Scheduling decisions ----

  ghost predicate SameSize(k: State, r: State) {
    |r.tasks| == |k.tasks| && |r.lists| == |k.lists| && r.current == k.current && Bounds(r)
  }

  /** Only READY/RUNNING marks and the choice may differ. */
  ghost predicate SameButChoice(k: State, r: State) {
    && r.lists == k.lists && r.current == k.current && r.clock == k.clock
    && |r.tasks| == |k.tasks|
    && (forall t :: 0 <= t < |k.tasks| ==>
          && r.tasks[t] == k.tasks[t].(state := r.tasks[t].state)
          && (r.tasks[t].state.Blocked? <==> k.tasks[t].state.Blocked?))
  }

  function SetTask(k: State, t: nat, x: Tcb): State
    requires t < |k.tasks|
  {
    k.(tasks := k.tasks[t := x])
  }

  function SetState(k: State, t: nat, s: TaskState): State
    requires t < |k.tasks|
  {
    SetTask(k, t, k.tasks[t].(state := s))
  }

  /** "If the current task is RUNNING it becomes READY", which precedes every decision. */
  function Demote(k: State): (r: State)
    requires Bounds(k)
    ensures SameButChoice(k, r) && r.next == k.next
  {
    if k.tasks[k.current].state.Running? then SetState(k, k.current, Ready) else k
  }

  /** Takes back an earlier choice that PendSV has not delivered yet. */
  function RollBack(k: State): (r: State)
    requires Bounds(k)
    ensures SameButChoice(k, r) && r.next == k.next
  {
    if k.next != k.current && k.tasks[k.next].state.Running? then SetState(k, k.next, Ready) else k
  }

  /** `sched_commit_next`. */
  function Commit(k: State): (r: State)
    requires Bounds(k)
    ensures SameButChoice(k, r) && Bounds(r)
  {
    var b := RollBack(k);
    var c := Select(b.tasks, b.current);
    var m := if b.tasks[c].state.Ready? then SetState(b, c, Running) else b;
    m.(next := c)
  }

  /** `sched_pick_and_mark`, and the end of `sched_tick_n` and `sched_wake_task`. */
  function Resched(k: State): (r: State)
    requires Bounds(k)
    ensures SameButChoice(k, r) && Bounds(r)
  {
    Commit(Demote(k))
  }

  /** PendSV makes the choice real. */
  function Deliver(k: State): State {
    k.(current := k.next)
  }

  // ---- Wait lists ----

  /** `wq_insert(head, t)`. */
  function Enqueue(k: State, t: nat, l: nat): State
    requires t < |k.tasks| && l < |k.lists| && InRange(k.lists[l], |k.tasks|)
  {
    k.(lists := k.lists[l := Insert(k.lists[l], k.tasks, t)],
       tasks := k.tasks[t := k.tasks[t].(on := Some(l), stamp := k.clock)],
       clock := k.clock + 1)
  }

  /** Takes entry `i` out of list `l`. */
  function UnlinkAt(k: State, l: nat, i: nat): State
    requires l < |k.lists| && i < |k.lists[l]| && k.lists[l][i] < |k.tasks|
  {
    var t := k.lists[l][i];
    k.(lists := k.lists[l := RemoveAt(k.lists[l], i)],
       tasks := k.tasks[t := k.tasks[t].(on := None)])
  }

  /** `wq_pop(head)` of a list that is not empty. */
  function Pop(k: State, l: nat): State
    requires l < |k.lists| && k.lists[l] != [] && k.lists[l][0] < |k.tasks|
  {
    UnlinkAt(k, l, 0)
  }

  /** `sched_wait_list_remove(head, t)`: a stale `head` removes nothing. */
  function Unlink(k: State, t: nat, l: nat): State
    requires l < |k.lists| && InRange(k.lists[l], |k.tasks|)
  {
    var i := IndexOf(k.lists[l], t);
    if i < |k.lists[l]| then UnlinkAt(k, l, i) else k
  }

  // ---- Blocking and waking ----

  /** How a caller prepares its own control block before it blocks on a list. */
  datatype Arm = Untimed | NoHead | Timed(remaining: nat)

  /** The control block of a task that is about to queue on list `l`. */
  function Prepared(x: Tcb, l: nat, arm: Arm): Tcb {
    var b := x.(state := Blocked);
    match arm
    case Untimed => b
    case NoHead => b.(head := None)
    case Timed(remaining) => b.(delay := remaining, head := Some(l), timedOut := false)
  }

  /** The current task blocks on list `l`: `state = BLOCKED`, `wq_insert`,
      `sched_block_locked`. */
  function Block(k: State, l: nat, arm: Arm): (r: State)
    requires Bounds(k) && l < |k.lists| && InRange(k.lists[l], |k.tasks|)
    ensures SameSize(k, r)
  {
    Resched(Enqueue(SetTask(k, k.current, Prepared(k.tasks[k.current], l, arm)), k.current, l))
  }

  /** `sched_wake_task(t)`. */
  function Wake(k: State, t: nat): (r: State)
    requires Bounds(k) && t < |k.tasks|
    ensures SameSize(k, r)
  {
    Resched(SetTask(k, t, k.tasks[t].(delay := 0, state := Ready)))
  }

  /** `sched_delay_ms(ms)` up to the switch. */
  function Delay(k: State, ms: nat): (r: State)
    requires Bounds(k)
    ensures SameSize(k, r)
  {
    Commit(SetTask(k, k.current, k.tasks[k.current].(delay := ms, state := Blocked)))
  }

  /** `sched_yield`. */
  function Yield(k: State): (r: State)
    requires Bounds(k)
    ensures SameSize(k, r)
  {
    Commit(SetState(k, k.current, Ready))
  }

  // ---- Time ----

  ghost predicate Shaped(k: State) {
    && Bounds(k)
    && (forall l :: 0 <= l < |k.lists| ==> InRange(k.lists[l], |k.tasks|))
    && (forall t :: 0 <= t < |k.tasks| && k.tasks[t].head.Some? ==> k.tasks[t].head.value < |k.lists|)
  }

  /** One turn of the loop of `sched_tick_n`: `e` milliseconds pass for task `t`. */
  function Expire(k: State, t: nat, e: nat): (r: State)
    requires Shaped(k) && t < |k.tasks|
    ensures Shaped(r) && |r.tasks| == |k.tasks| && |r.lists| == |k.lists|
    ensures r.current == k.current && r.next == k.next && r.clock == k.clock
  {
    var x := k.tasks[t];
    if !x.state.Blocked? || x.delay == 0 then k
    else if x.delay > e then SetTask(k, t, x.(delay := x.delay - e))
    else if x.head.None? then SetTask(k, t, x.(delay := 0, state := Ready))
    else
      var u := Unlink(k, t, x.head.value);
      SetTask(u, t, u.tasks[t].(delay := 0, head := None, timedOut := true, state := Ready))
  }

  /** The loop of `sched_tick_n` over tasks 0 to `n - 1`. */
  function ExpireUpTo(k: State, e: nat, n: nat): (r: State)
    requires Shaped(k) && n <= |k.tasks|
    ensures Shaped(r) && |r.tasks| == |k.tasks| && |r.lists| == |k.lists|
    ensures r.current == k.current && r.next == k.next && r.clock == k.clock
  {
    if n == 0 then k else Expire(ExpireUpTo(k, e, n - 1), n - 1, e)
  }

  /** `sched_tick_n(e)`; `sched_tick` is the case `e == 1`. */
  function TickN(k: State, e: nat): (r: State)
    requires Shaped(k)
    ensures Shaped(r) && SameSize(k, r)
  {
    Resched(ExpireUpTo(k, e, |k.tasks| - 1))
  }
}
