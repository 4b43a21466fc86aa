/** The functions of scheduler.c on the heap, loop by loop; each is proved to be the kernel
    operation of the same name. */
module HeapScheduler {
  import opened Selection
  import opened WaitQueue
  import opened Kernel
  import opened Heap
  import K = Kernel

  // ---- Writing one field ----

  /** `x` differs from the control block of `t` in nothing but fields in memory. */
  predicate Rewrites(k: State, t: nat, x: Tcb) {
    && t < |k.tasks| && x.on == k.tasks[t].on && x.stamp == k.tasks[t].stamp
    && (x.head.Some? ==> x.head.value < |k.lists|)
  }

  lemma RewriteLists(k: State, t: nat, x: Tcb)
    requires ListsOk(k) && Rewrites(k, t, x)
    ensures ListsOk(SetTask(k, t, x))
  {
    var r := SetTask(k, t, x);
    forall l | 0 <= l < |r.lists| ensures ListOk(r, l) && InRange(r.lists[l], |r.tasks|) {
      assert ListOk(k, l);
    }
  }

  lemma RewriteChains(tasks: seq<Task>, links: seq<Task?>, firsts: seq<Task?>, k: State, t: nat, x: Tcb)
    requires Chains(tasks, links, firsts, k) && Rewrites(k, t, x)
    ensures Chains(tasks, links, firsts, SetTask(k, t, x))
  {
    RewriteLists(k, t, x);
  }

  /** The memory matches `k` but for the control block of `t`, which is `x`. */
  ghost predicate AllBut(s: Scheduler, t: nat, x: Tcb)
    reads s, s.nodes, s.cells
  {
    && s.Distinguished() && s.Mirrored() && Chains(s.tasks, s.links, s.firsts, s.k) && Rewrites(s.k, t, x)
    && Bounds(s.k) && s.current == s.tasks[s.k.current] && s.next == s.tasks[s.k.next]
    && IsTcb(s.tasks[t], x, s.lists)
    && forall u :: 0 <= u < |s.tasks| && u != t ==> IsTcb(s.tasks[u], s.k.tasks[u], s.lists)
  }

  lemma OneTcb(s: Scheduler, t: nat)
    requires s.Valid() && t < |s.tasks|
    ensures t < |s.k.tasks| && AllBut(s, t, s.k.tasks[t])
  {
    assert IsTcb(s.tasks[t], s.k.tasks[t], s.lists);
    assert forall u :: 0 <= u < |s.tasks| ==> IsTcb(s.tasks[u], s.k.tasks[u], s.lists);
    assert Shaped(s.k);
  }

  lemma AllTcbs(s: Scheduler, t: nat, x: Tcb, k: State)
    requires AllBut(s, t, x) && k == SetTask(s.k, t, x)
    ensures s.Distinguished() && s.Mirrored() && Chains(s.tasks, s.links, s.firsts, k) && s.Fields(k)
  {
    RewriteChains(s.tasks, s.links, s.firsts, s.k, t, x);
  }

  method WriteState(s: Scheduler, ghost t: nat, task: Task, v: TaskState)
    requires s.Valid() && t < |s.tasks| && task == s.tasks[t]
    modifies s`k, s.nodes`state
    ensures s.Valid() && t < |old(s.k).tasks|
    ensures s.k == SetTask(old(s.k), t, old(s.k).tasks[t].(state := v))
  {
    OneTcb(s, t);
    ghost var x := s.k.tasks[t].(state := v);
    task.state := v;
    assert AllBut(s, t, x);
    AllTcbs(s, t, x, SetTask(s.k, t, x));
    s.k := SetTask(s.k, t, x);
    s.Assemble();
  }

  method WritePrio(s: Scheduler, ghost t: nat, task: Task, v: nat)
    requires s.Valid() && t < |s.tasks| && task == s.tasks[t]
    modifies s`k, s.nodes`prio
    ensures s.Valid() && t < |old(s.k).tasks|
    ensures s.k == SetTask(old(s.k), t, old(s.k).tasks[t].(prio := v))
  {
    OneTcb(s, t);
    ghost var x := s.k.tasks[t].(prio := v);
    task.prio := v;
    assert AllBut(s, t, x);
    AllTcbs(s, t, x, SetTask(s.k, t, x));
    s.k := SetTask(s.k, t, x);
    s.Assemble();
  }

  method WriteDelay(s: Scheduler, ghost t: nat, task: Task, v: nat)
    requires s.Valid() && t < |s.tasks| && task == s.tasks[t]
    modifies s`k, s.nodes`delay
    ensures s.Valid() && t < |old(s.k).tasks|
    ensures s.k == SetTask(old(s.k), t, old(s.k).tasks[t].(delay := v))
  {
    OneTcb(s, t);
    ghost var x := s.k.tasks[t].(delay := v);
    task.delay := v;
    assert AllBut(s, t, x);
    AllTcbs(s, t, x, SetTask(s.k, t, x));
    s.k := SetTask(s.k, t, x);
    s.Assemble();
  }

  method WriteTimedOut(s: Scheduler, ghost t: nat, task: Task, v: bool)
    requires s.Valid() && t < |s.tasks| && task == s.tasks[t]
    modifies s`k, s.nodes`timedOut
    ensures s.Valid() && t < |old(s.k).tasks|
    ensures s.k == SetTask(old(s.k), t, old(s.k).tasks[t].(timedOut := v))
  {
    OneTcb(s, t);
    ghost var x := s.k.tasks[t].(timedOut := v);
    task.timedOut := v;
    assert AllBut(s, t, x);
    AllTcbs(s, t, x, SetTask(s.k, t, x));
    s.k := SetTask(s.k, t, x);
    s.Assemble();
  }

  method WriteHead(s: Scheduler, ghost t: nat, task: Task, v: WaitList?, ghost l: Option<nat>)
    requires s.Valid() && t < |s.tasks| && task == s.tasks[t]
    requires if l.None? then v == null else l.value < |s.lists| && v == s.lists[l.value]
    modifies s`k, s.nodes`waitListHead
    ensures s.Valid() && t < |old(s.k).tasks|
    ensures s.k == SetTask(old(s.k), t, old(s.k).tasks[t].(head := l))
  {
    OneTcb(s, t);
    ghost var x := s.k.tasks[t].(head := l);
    task.waitListHead := v;
    assert AllBut(s, t, x);
    AllTcbs(s, t, x, SetTask(s.k, t, x));
    s.k := SetTask(s.k, t, x);
    s.Assemble();
  }

  /** `g_next_task = c`. */
  method WriteNext(s: Scheduler, ghost c: nat, task: Task)
    requires s.Valid() && c < |s.tasks| && task == s.tasks[c]
    modifies s`k, s`next
    ensures s.Valid() && s.k == old(s.k).(next := c)
  {
    s.next := task;
    s.k := s.k.(next := c);
    assert s.Fields(s.k) by {
      assert old(s.Fields(s.k));
    }
    assert Chains(s.tasks, s.links, s.firsts, s.k) by {
      assert forall l :: 0 <= l < |s.k.lists| ==> ListOk(old(s.k), l) ==> ListOk(s.k, l);
    }
  }

  // ---- sched_select_next ----

  /** What the memory says about task `t`. */
  lemma ReadTcb(s: Scheduler, t: nat)
    requires s.Valid() && t < |s.tasks|
    ensures |s.k.tasks| == |s.tasks| && IsTcb(s.tasks[t], s.k.tasks[t], s.lists)
  {
  }

  lemma Globals(s: Scheduler)
    requires s.Valid()
    ensures |s.k.tasks| == |s.tasks| > 0 && |s.k.lists| == |s.lists| && Bounds(s.k) && Shaped(s.k)
    ensures s.current == s.tasks[s.k.current] && s.next == s.tasks[s.k.next]
    ensures forall i :: 0 <= i < |s.tasks| && s.tasks[i] == s.tasks[s.k.current] ==> i == s.k.current
    ensures forall i :: 0 <= i < |s.tasks| && s.tasks[i] == s.tasks[s.k.next] ==> i == s.k.next
  {
  }

  /** First loop: the best READY priority and the first task that has it. */
  method BestReady(s: Scheduler) returns (best: nat, chosen: nat)
    requires s.Valid()
    ensures |s.k.tasks| == |s.tasks| > 0 && (best, chosen) == BestOf(s.k.tasks, |s.tasks| - 1)
  {
    hide s.Valid, Shaped, Bounds;
    Globals(s);
    best, chosen := NO_PRIO, |s.tasks| - 1;
    var i := 0;
    while i < |s.tasks| - 1
      invariant 0 <= i <= |s.tasks| - 1 && (best, chosen) == BestOf(s.k.tasks, i)
    {
      ReadTcb(s, i);
      if s.tasks[i].state.Ready? && s.tasks[i].prio < best {
        best, chosen := s.tasks[i].prio, i;
      }
      i := i + 1;
    }
  }

  /** The search for the current task's index: 0 when it is the idle task. */
  method FindCurrent(s: Scheduler) returns (start: nat)
    requires s.Valid()
    ensures |s.k.tasks| == |s.tasks| && start == StartOf(s.k.tasks, s.k.current)
  {
    Globals(s);
    start := 0;
    var i := 0;
    while i < |s.tasks| - 1
      invariant 0 <= i <= s.k.current && start == 0
    {
      if s.tasks[i] == s.current {
        start := i;
        break;
      }
      i := i + 1;
    }
  }

  /** Second loop: the nearest READY task of priority `best`, `first` if there is none. */
  method ScanReady(s: Scheduler, best: nat, start: nat, first: nat) returns (chosen: nat)
    requires s.Valid() && start < |s.tasks| - 1 && first < |s.tasks|
    ensures |s.k.tasks| == |s.tasks| && chosen == ScanFrom(s.k.tasks, best, start, 1, first)
  {
    hide s.Valid, Shaped, Bounds;
    Globals(s);
    var n := |s.tasks| - 1;
    chosen := first;
    var d := 1;
    while d < n
      invariant 1 <= d && chosen == first
      invariant ScanFrom(s.k.tasks, best, start, 1, first) == ScanFrom(s.k.tasks, best, start, d, first)
    {
      var idx := (start + d) % n;
      assert idx == Cyclic(n, start, d);
      ReadTcb(s, idx);
      if s.tasks[idx].state.Ready? && s.tasks[idx].prio == best {
        chosen := idx;
        break;
      }
      d := d + 1;
    }
  }

  /** `sched_select_next`. */
  method SelectNext(s: Scheduler) returns (chosen: nat)
    requires s.Valid()
    ensures |s.k.tasks| == |s.tasks| > 0 && Bounds(s.k) && chosen == Select(s.k.tasks, s.k.current)
  {
    hide s.Valid, Shaped, BestOf, ScanFrom;
    Globals(s);
    var best;
    best, chosen := BestReady(s);
    if chosen != |s.tasks| - 1 {
      var start := FindCurrent(s);
      chosen := ScanReady(s, best, start, chosen);
    }
  }

  // ---- Decisions ----

  /** `sched_commit_next`. */
  method CommitNext(s: Scheduler)
    requires s.Valid()
    modifies s`k, s`next, s.nodes`state
    ensures s.Valid() && Bounds(old(s.k)) && s.k == Commit(old(s.k))
  {
    hide s.Valid, Shaped, Select;
    Globals(s);
    ghost var k := s.k;
    ReadTcb(s, s.k.next);
    if s.next != s.current && s.next.state.Running? {
      WriteState(s, s.k.next, s.next, Ready);
    }
    assert s.k == RollBack(k);
    var c := SelectNext(s);
    WriteNext(s, c, s.tasks[c]);
    Globals(s);
    ReadTcb(s, c);
    if s.next.state.Ready? {
      WriteState(s, c, s.next, Running);
    }
  }

  /** `sched_pick_and_mark`, which is also `sched_block_locked` up to the PendSV request. */
  method PickAndMark(s: Scheduler)
    requires s.Valid()
    modifies s`k, s`next, s.nodes`state
    ensures s.Valid() && Bounds(old(s.k)) && s.k == Resched(old(s.k))
  {
    hide s.Valid, Shaped, Commit;
    Globals(s);
    ReadTcb(s, s.k.current);
    if s.current.state.Running? {
      WriteState(s, s.k.current, s.current, Ready);
    }
    CommitNext(s);
  }

  // ---- sched_tick_n ----

  lemma SetTwice(k: State, t: nat, x: Tcb, y: Tcb)
    requires t < |k.tasks|
    ensures SetTask(SetTask(k, t, x), t, y) == SetTask(k, t, y)
  {
  }

  /** Taking a task out of a list and rewriting its other fields commute. */
  lemma UnlinkCommutes(k: State, t: nat, l: nat, x: Tcb, y: Tcb)
    requires t < |k.tasks| && l < |k.lists| && InRange(k.lists[l], |k.tasks|)
    requires x.on == k.tasks[t].on
    ensures Unlink(k, t, l).tasks[t] == k.tasks[t].(on := Unlink(k, t, l).tasks[t].on)
    ensures Unlink(SetTask(k, t, x), t, l).tasks[t] == x.(on := Unlink(k, t, l).tasks[t].on)
    ensures SetTask(Unlink(SetTask(k, t, x), t, l), t, y) == SetTask(Unlink(k, t, l), t, y)
  {
  }

  /** The writes of a time-out in their order are `Expire`. */
  lemma WritesExpire(k: State, t: nat, a: State, b: State, c: State, d: State)
    requires Shaped(k) && t < |k.tasks| && k.tasks[t].state.Blocked? && k.tasks[t].delay > 0
    requires a == SetTask(k, t, k.tasks[t].(delay := 0))
    requires k.tasks[t].head.None? ==> c == a
    requires k.tasks[t].head.Some? ==>
      && Shaped(a) && b == Unlink(a, t, k.tasks[t].head.value) && t < |b.tasks|
      && c == SetTask(b, t, b.tasks[t].(head := None, timedOut := true))
    requires t < |c.tasks| && d == SetTask(c, t, c.tasks[t].(state := Ready))
    ensures d == Expire(k, t, k.tasks[t].delay)
  {
    var x := k.tasks[t];
    hide Unlink;
    if x.head.Some? {
      var l := x.head.value;
      var y := b.tasks[t].(head := None, timedOut := true, state := Ready);
      UnlinkCommutes(k, t, l, x.(delay := 0), y);
      SetTwice(b, t, b.tasks[t].(head := None, timedOut := true), y);
    } else {
      SetTwice(k, t, x.(delay := 0), x.(delay := 0, state := Ready));
    }
  }

  /** `wait_list_head = NULL; timed_out = 1`. */
  method MarkTimedOut(s: Scheduler, ghost t: nat, task: Task)
    requires s.Valid() && t < |s.tasks| && task == s.tasks[t]
    modifies s`k, s.nodes`waitListHead, s.nodes`timedOut
    ensures s.Valid() && t < |old(s.k).tasks|
    ensures s.k == SetTask(old(s.k), t, old(s.k).tasks[t].(head := None, timedOut := true))
  {
    hide s.Valid, SetTask;
    Globals(s);
    ghost var k, x := s.k, s.k.tasks[t];
    WriteHead(s, t, task, null, None);
    SetAt(k, t, x.(head := None));
    WriteTimedOut(s, t, task, true);
    SetTwice(k, t, x.(head := None), x.(head := None, timedOut := true));
  }

  lemma SetAt(k: State, t: nat, x: Tcb)
    requires t < |k.tasks|
    ensures |SetTask(k, t, x).tasks| == |k.tasks| && SetTask(k, t, x).tasks[t] == x
  {
  }

  /** The delay of task `t` has run out. */
  method TimeOut(s: Scheduler, t: nat)
    requires s.Valid() && t < |s.tasks| && t < |s.k.tasks| && s.k.tasks[t].state.Blocked? && s.k.tasks[t].delay > 0
    modifies s`k, s`links, s`firsts, s.nodes, s.cells`first
    ensures s.Valid() && Shaped(old(s.k)) && t < |old(s.k).tasks|
    ensures s.k == Expire(old(s.k), t, old(s.k).tasks[t].delay)
  {
    hide s.Valid, Shaped, Unlink, SetTask, Expire;
    Globals(s);
    ReadTcb(s, t);
    ghost var k, x := s.k, s.k.tasks[t];
    var task := s.tasks[t];
    WriteDelay(s, t, task, 0);
    ghost var a, b := s.k, s.k;
    Globals(s);
    ReadTcb(s, t);
    SetAt(k, t, x.(delay := 0));
    if task.waitListHead != null {
      HeadInRange(k, t);
      s.WaitListRemove(task.waitListHead, x.head.value, t, task);
      b := s.k;
      MarkTimedOut(s, t, task);
    }
    ghost var c := s.k;
    WriteState(s, t, task, Ready);
    WritesExpire(k, t, a, b, c, s.k);
  }

  lemma HeadInRange(k: State, t: nat)
    requires Shaped(k) && t < |k.tasks|
    ensures k.tasks[t].head.Some? ==> k.tasks[t].head.value < |k.lists|
  {
  }

  /** One turn of the loop of `sched_tick_n`. */
  method ExpireOne(s: Scheduler, t: nat, e: nat)
    requires s.Valid() && t < |s.tasks|
    modifies s`k, s`links, s`firsts, s.nodes, s.cells`first
    ensures s.Valid() && Shaped(old(s.k)) && t < |old(s.k).tasks| && s.k == Expire(old(s.k), t, e)
  {
    hide s.Valid, Shaped, SetTask, Unlink;
    Globals(s);
    ReadTcb(s, t);
    var task := s.tasks[t];
    if task.state.Blocked? && task.delay > 0 {
      if task.delay <= e {
        TimeOut(s, t);
      } else {
        WriteDelay(s, t, task, task.delay - e);
      }
    }
  }

  /** `sched_tick_n` up to the PendSV request. */
  method SchedTickN(s: Scheduler, e: nat)
    requires s.Valid()
    modifies s`k, s`next, s`links, s`firsts, s.nodes, s.cells`first
    ensures s.Valid() && Shaped(old(s.k)) && s.k == TickN(old(s.k), e)
  {
    hide s.Valid, Shaped, Expire, Resched;
    Globals(s);
    ghost var k := s.k;
    var i := 0;
    while i < |s.tasks| - 1
      invariant s.Valid() && 0 <= i <= |s.tasks| - 1 && s.k == ExpireUpTo(k, e, i)
    {
      ExpireOne(s, i, e);
      i := i + 1;
    }
    PickAndMark(s);
  }

  // ---- Blocking and waking ----

  /** The running task may block: it is not idle and on no list. */
  ghost predicate MayBlock(s: Scheduler)
    reads s, s.nodes, s.cells
  {
    s.Valid() && s.k.current < Idle(s.k) && s.k.tasks[s.k.current].on.None?
  }

  /** `sched_wake_task`. */
  method WakeTask(s: Scheduler, ghost t: nat, task: Task)
    requires s.Valid() && t < |s.tasks| && task == s.tasks[t] && t < Idle(s.k) && s.k.tasks[t].on.None?
    modifies s`k, s`next, s`links, s.nodes`waitNext, s.nodes`delay, s.nodes`state
    ensures s.Valid() && Bounds(old(s.k)) && t < |old(s.k).tasks| && s.k == Wake(old(s.k), t)
  {
    hide s.Valid, Shaped, SetTask, Resched;
    Globals(s);
    ghost var k, x := s.k, s.k.tasks[t];
    ClearNext(s, t, task);
    WriteDelay(s, t, task, 0);
    SetAt(k, t, x.(delay := 0));
    WriteState(s, t, task, Ready);
    SetTwice(k, t, x.(delay := 0), x.(delay := 0, state := Ready));
    PickAndMark(s);
  }

  /** `t->wait_next = NULL` for a task on no list. */
  method ClearNext(s: Scheduler, ghost t: nat, task: Task)
    requires s.Valid() && t < |s.tasks| && task == s.tasks[t] && t < Idle(s.k) && s.k.tasks[t].on.None?
    modifies s`links, s.nodes`waitNext
    ensures s.Valid()
  {
    hide *;
    Parts(s);
    ghost var ls := s.links;
    s.SetNext(t, task, null);
    ClearedChains(s.tasks, ls, s.links, s.firsts, s.k, t);
    s.Assemble();
  }

  lemma Parts(s: Scheduler)
    requires s.Valid()
    ensures s.Distinguished() && s.Mirrored() && Chains(s.tasks, s.links, s.firsts, s.k) && s.Fields(s.k)
    ensures |s.links| == |s.tasks| == |s.k.tasks|
  {
  }

  lemma ClearedChains(tasks: seq<Task>, links: seq<Task?>, after: seq<Task?>, firsts: seq<Task?>, k: State, t: nat)
    requires Chains(tasks, links, firsts, k) && |links| == |k.tasks| && t < |links| && k.tasks[t].on.None?
    requires |after| == |links| && after == links[t := null]
    ensures Chains(tasks, after, firsts, k)
  {
    forall l | 0 <= l < |k.lists| ensures Chain(tasks, after, firsts[l], k.lists[l]) {
      assert ListOk(k, l);
      NotOn(tasks, links, after, firsts[l], k.lists[l], t);
    }
  }

  /** The current task is no longer ready to run. */
  method Suspend(s: Scheduler)
    requires s.Valid()
    modifies s`k, s.nodes`state
    ensures s.Valid() && Bounds(old(s.k))
    ensures s.k == K.SetState(old(s.k), old(s.k).current, Blocked)
  {
    Globals(s);
    WriteState(s, s.k.current, s.current, Blocked);
  }

  /** The ends of all blocking calls: `wq_insert`, `sched_block_locked`. */
  method QueueUp(s: Scheduler, head: WaitList, ghost l: nat)
    requires MayBlock(s) && l < |s.lists| && head == s.lists[l]
    modifies s`k, s`next, s`links, s`firsts, s.nodes`waitNext, s.nodes`state, s.cells`first
    ensures s.Valid() && Bounds(old(s.k)) && l < |old(s.k).lists| && InRange(old(s.k).lists[l], |old(s.k).tasks|)
    ensures s.k == Resched(Enqueue(old(s.k), old(s.k).current, l))
  {
    hide s.Valid, Enqueue, Resched;
    Globals(s);
    s.WqInsert(head, l, s.k.current, s.current);
    PickAndMark(s);
  }

  /** The current task blocks on a list without a timeout. */
  method BlockUntimed(s: Scheduler, head: WaitList, ghost l: nat)
    requires MayBlock(s) && l < |s.lists| && head == s.lists[l]
    modifies s`k, s`next, s`links, s`firsts, s.nodes`waitNext, s.nodes`state, s.cells`first
    ensures s.Valid() && Shaped(old(s.k)) && l < |old(s.k).lists| && s.k == Block(old(s.k), l, Untimed)
  {
    hide s.Valid, Enqueue, Resched, SetTask;
    Globals(s);
    SetAt(s.k, s.k.current, s.k.tasks[s.k.current].(state := Blocked));
    SetKeeps(s.k, s.k.current, s.k.tasks[s.k.current].(state := Blocked));
    Suspend(s);
    QueueUp(s, head, l);
  }

  lemma SetKeeps(k: State, t: nat, x: Tcb)
    requires t < |k.tasks|
    ensures var r := SetTask(k, t, x); r.current == k.current && r.next == k.next && r.lists == k.lists && |r.tasks| == |k.tasks|
  {
  }

  /** The same with `wait_list_head = NULL`, as `event_wait` does. */
  method BlockHeadless(s: Scheduler, head: WaitList, ghost l: nat)
    requires MayBlock(s) && l < |s.lists| && head == s.lists[l]
    modifies s`k, s`next, s`links, s`firsts, s.nodes`waitNext, s.nodes`state, s.nodes`waitListHead, s.cells`first
    ensures s.Valid() && Shaped(old(s.k)) && l < |old(s.k).lists| && s.k == Block(old(s.k), l, NoHead)
  {
    hide s.Valid, Enqueue, Resched, SetTask;
    Globals(s);
    ghost var k, c, x := s.k, s.k.current, s.k.tasks[s.k.current];
    SetAt(k, c, x.(state := Blocked));
    SetKeeps(k, c, x.(state := Blocked));
    Suspend(s);
    WriteHead(s, c, s.current, null, None);
    SetTwice(k, c, x.(state := Blocked), x.(state := Blocked, head := None));
    SetAt(k, c, x.(state := Blocked, head := None));
    SetKeeps(k, c, x.(state := Blocked, head := None));
    QueueUp(s, head, l);
  }

  /** The same with a timeout. */
  method BlockTimed(s: Scheduler, head: WaitList, ghost l: nat, remaining: nat)
    requires MayBlock(s) && l < |s.lists| && head == s.lists[l]
    modifies s`k, s`next, s`links, s`firsts, s.nodes, s.cells`first
    ensures s.Valid() && Shaped(old(s.k)) && l < |old(s.k).lists| && s.k == Block(old(s.k), l, Timed(remaining))
  {
    hide s.Valid, Enqueue, Resched, SetTask;
    Globals(s);
    ghost var k, c, x := s.k, s.k.current, s.k.tasks[s.k.current];
    ghost var y1 := x.(state := Blocked);
    ghost var y2 := y1.(delay := remaining);
    ghost var y3 := y2.(head := Some(l));
    ghost var y4 := y3.(timedOut := false);
    SetAt(k, c, y1);
    SetKeeps(k, c, y1);
    Suspend(s);
    WriteDelay(s, c, s.current, remaining);
    SetTwice(k, c, y1, y2);
    SetAt(k, c, y2);
    WriteHead(s, c, s.current, head, Some(l));
    SetTwice(k, c, y2, y3);
    SetAt(k, c, y3);
    WriteTimedOut(s, c, s.current, false);
    SetTwice(k, c, y3, y4);
    SetAt(k, c, y4);
    SetKeeps(k, c, y4);
    QueueUp(s, head, l);
  }

  /** `sched_delay_ms` up to the switch, for `ms > 0`. */
  method DelayMs(s: Scheduler, ms: nat)
    requires s.Valid()
    modifies s`k, s`next, s.nodes`delay, s.nodes`state
    ensures s.Valid() && Bounds(old(s.k)) && s.k == if ms == 0 then old(s.k) else Delay(old(s.k), ms)
  {
    hide s.Valid, Commit, SetTask;
    Globals(s);
    if ms == 0 {
      return;
    }
    ghost var k, c, x := s.k, s.k.current, s.k.tasks[s.k.current];
    WriteDelay(s, c, s.current, ms);
    SetAt(k, c, x.(delay := ms));
    SetKeeps(k, c, x.(delay := ms));
    Suspend(s);
    SetTwice(k, c, x.(delay := ms), x.(delay := ms, state := Blocked));
    CommitNext(s);
  }

  /** `sched_yield` up to the PendSV request. */
  method YieldNow(s: Scheduler)
    requires s.Valid()
    modifies s`k, s`next, s.nodes`state
    ensures s.Valid() && Bounds(old(s.k)) && s.k == Yield(old(s.k))
  {
    hide s.Valid, Commit;
    Globals(s);
    WriteState(s, s.k.current, s.current, Ready);
    CommitNext(s);
  }

  /** What a timed call does first when it runs again: a timeout is noted and cleared. */
  method TakeTimeout(s: Scheduler) returns (timedOut: bool)
    requires s.Valid()
    modifies s`k, s.nodes`timedOut, s.nodes`waitListHead
    ensures s.Valid() && Bounds(old(s.k)) && timedOut == old(s.k).tasks[old(s.k).current].timedOut
    ensures s.k == if timedOut
      then SetTask(old(s.k), old(s.k).current, old(s.k).tasks[old(s.k).current].(timedOut := false, head := None))
      else old(s.k)
  {
    hide s.Valid, SetTask;
    Globals(s);
    ghost var k, c, x := s.k, s.k.current, s.k.tasks[s.k.current];
    ReadTcb(s, c);
    timedOut := s.current.timedOut;
    if timedOut {
      WriteTimedOut(s, c, s.current, false);
      SetAt(k, c, x.(timedOut := false));
      WriteHead(s, c, s.current, null, None);
      SetTwice(k, c, x.(timedOut := false), x.(timedOut := false, head := None));
    }
  }
}
