/** What the machine guarantees over runs, said of one task, list or object at a time. */
module Guarantees {
  import opened Selection
  import opened WaitQueue
  import opened Kernel
  import opened EventBits
  import opened Primitives
  import opened System
  import opened Integrity
  import opened IntegritySteps
  import opened Runs
  import opened Channels
  import opened Frames
  import opened Inheritance
  import opened HandOff
  import opened EventRuns
  import opened Calls

  // ---- No lost wake-up ----

  /** A free mutex with waiters has a woken task about to retry, and that task is not blocked. */
  lemma MutexHasHeir(tr: seq<Sys>, acts: seq<Action>, i: nat, m: nat)
    requires IsRun(tr, acts) && Init(tr[0]) && i < |tr|
    requires m < |tr[i].objs| && tr[i].objs[m].Mutex? && tr[i].objs[m].owner.None?
    requires |tr[i].k.lists| == 2 * |tr[i].objs| && tr[i].k.lists[2 * m] != []
    ensures |tr[i].pcs| == |tr[i].k.tasks|
    ensures exists t :: IsToken(tr[i], t, 2 * m) && !tr[i].k.tasks[t].state.Blocked?
  {
    var s := tr[i];
    RunKeeps(tr, acts, i);
    assert ListOk(s.k, 2 * m) && ChannelOk(s, 2 * m);
    assert s.k.tasks[s.k.lists[2 * m][0]].on == Some(2 * m);
    assert Tokens(s, 2 * m) != {};
    var t :| t in Tokens(s, 2 * m);
    assert PcOk(s, t) && PcFits(s, t);
  }

  /** While receivers sleep, the stored items do not exceed the receivers already popped;
      while senders sleep, the free slots do not exceed the senders already popped. */
  lemma QueueStrandsNobody(tr: seq<Sys>, acts: seq<Action>, i: nat, q: nat)
    requires IsRun(tr, acts) && Init(tr[0]) && i < |tr|
    requires q < |tr[i].objs| && tr[i].objs[q].Queue?
    ensures Shape(tr[i])
    ensures tr[i].k.lists[2 * q] != [] ==> |tr[i].objs[q].items| <= |Tokens(tr[i], 2 * q)|
    ensures tr[i].k.lists[2 * q + 1] != [] ==>
      tr[i].objs[q].capacity - |tr[i].objs[q].items| <= |Tokens(tr[i], 2 * q + 1)|
  {
    var s := tr[i];
    RunKeeps(tr, acts, i);
    assert ChannelOk(s, 2 * q) && ChannelOk(s, 2 * q + 1);
    assert ListOk(s.k, 2 * q) && ListOk(s.k, 2 * q + 1);
    if s.k.lists[2 * q] != [] {
      assert s.k.tasks[s.k.lists[2 * q][0]].on == Some(2 * q);
    }
    if s.k.lists[2 * q + 1] != [] {
      assert s.k.tasks[s.k.lists[2 * q + 1][0]].on == Some(2 * q + 1);
    }
  }

  // ---- Ownership ----

  /** `mutex_lock` returns only to the owner. */
  lemma LockReturnsOwner(s: Sys, m: nat)
    requires Shape(s) && TaskRuns(s) && m < |s.objs| && s.objs[m].Mutex?
    requires var pc := s.pcs[s.k.current]; (CallsLock(pc, m) || (pc.Slow? && pc.op.Lock? && pc.op.m == m)) && pc.op.p.Forever?
    ensures var r := Advance(s); r.pcs[s.k.current].User? ==> r.objs[m].Mutex? && r.objs[m].owner == Some(s.k.current)
  {
    hide TryOp, Block, Inherit, Shaped, OwnerFits;
    assert PcFits(s, s.k.current);
    if !s.pcs[s.k.current].Slow? {
      TryOwnership(s, s.pcs[s.k.current].op, m);
    }
  }

  // ---- Queues move one item at a time ----

  /** Nothing, one item appended where there was room, or the oldest item gone. */
  ghost predicate QueueMoved(a: Object, b: Object) {
    a.Queue? ==>
      && b.Queue? && b.capacity == a.capacity
      && (|| b.items == a.items
          || (|a.items| < a.capacity && exists item :: b.items == a.items + [item])
          || (a.items != [] && b.items == a.items[1..]))
  }

  lemma TryQueueMoves(s: Sys, op: Op, o: nat)
    requires Shape(s) && TaskRuns(s) && Fits(s.objs, op) && o < |s.objs|
    ensures QueueMoved(s.objs[o], TryOp(s, op).objs[o])
    ensures op.Send? && op.q == o && |s.objs[o].items| < s.objs[o].capacity ==>
      TryOp(s, op).objs[o].items == s.objs[o].items + [op.item]
    ensures op.Recv? && op.q == o && |s.objs[o].items| > 0 ==>
      TryOp(s, op).objs[o].items == s.objs[o].items[1..]
    ensures (op.Send? || op.Recv?) && op.q == o && op.p.Forever? && TryOp(s, op).objs[o] == s.objs[o] ==>
      TryOp(s, op).pcs[s.k.current].Asleep? && TryOp(s, op).pcs[s.k.current].op == op
  {
    hide TryOp, ServesFirst, Wanted, Has, IsBit, Shaped, PcFits, OwnerFits;
    TryTried(s, op);
  }

  /** No action loses, duplicates or reorders items. */
  lemma ItemsStayInOrder(s: Sys, a: Action, o: nat)
    requires Shape(s) && Enabled(s, a) && o < |s.objs|
    ensures QueueMoved(s.objs[o], Apply(s, a).objs[o])
  {
    hide PopWake, UnlockKernel, Sweep, TickN, Delay, Yield, Block, Wake, Inherit, TryOp, Shaped, OwnerFits;
    if a.Continue? {
      assert PcFits(s, s.k.current);
      if s.pcs[s.k.current].Called? || s.pcs[s.k.current].Asleep? {
        TryQueueMoves(s, s.pcs[s.k.current].op, o);
      }
    }
  }

  // ---- Priority inheritance ----

  /** While a mutex is held, the owner's priority is the best of its own and those of all tasks
      that queued during this ownership. */
  lemma OwnerPriorityExact(tr: seq<Sys>, acts: seq<Action>, i: nat, m: nat)
    requires IsRun(tr, acts) && Init(tr[0]) && FollowsOneMutex(tr, acts) && i < |tr|
    requires m < |tr[i].objs| && tr[i].objs[m].Mutex? && tr[i].objs[m].owner.Some?
    ensures var o := tr[i].objs[m].owner.value;
      o < |tr[i].k.tasks| && o < |tr[0].base| && tr[i].k.tasks[o].prio == Best(tr[0].base[o], tr[i].objs[m].queued)
  {
    hide Apply, Init;
    RunExact(tr, acts, i);
    BaseFixed(tr, acts, i);
    assert MutexOk(tr[i], tr[i].objs[m]);
  }

  /** A waiter that queued during this ownership counts: its priority is on record. */
  lemma WaiterOnRecord(tr: seq<Sys>, acts: seq<Action>, i: nat, m: nat, w: nat)
    requires IsRun(tr, acts) && Init(tr[0]) && FollowsOneMutex(tr, acts) && i < |tr|
    requires m < |tr[i].objs| && tr[i].objs[m].Mutex? && tr[i].objs[m].owner.Some?
    requires w < |tr[i].k.tasks| && tr[i].k.tasks[w].on == Some(2 * m) && tr[i].k.tasks[w].stamp >= tr[i].objs[m].since
    ensures w < |tr[0].base| && tr[0].base[w] in tr[i].objs[m].queued
  {
    hide Apply, Init;
    RunExact(tr, acts, i);
    BaseFixed(tr, acts, i);
    assert QueuedOk(tr[i], m);
  }

  /** A task that holds no mutex has its own priority. */
  lemma OthersKeepTheirs(tr: seq<Sys>, acts: seq<Action>, i: nat, t: nat)
    requires IsRun(tr, acts) && Init(tr[0]) && FollowsOneMutex(tr, acts) && i < |tr|
    requires t < |tr[i].k.tasks| && !Holds(tr[i], t)
    ensures t < |tr[0].base| && tr[i].k.tasks[t].prio == tr[0].base[t]
  {
    hide Apply, Init;
    RunExact(tr, acts, i);
    BaseFixed(tr, acts, i);
  }

  /** The unlock that ends an ownership gives the owner its own priority back. */
  lemma UnlockRestores(tr: seq<Sys>, acts: seq<Action>, i: nat, m: nat)
    requires IsRun(tr, acts) && Init(tr[0]) && FollowsOneMutex(tr, acts) && i < |acts| && acts[i] == Unlock(m)
    ensures Shape(tr[i]) && Shape(tr[i + 1])
    ensures tr[i].base == tr[0].base
    ensures tr[i + 1].k.tasks[tr[i].k.current].prio == tr[0].base[tr[i].k.current]
  {
    RunExact(tr, acts, i);
    RunExact(tr, acts, i + 1);
    BaseFixed(tr, acts, i);
    UnlockLetsGo(tr[i], m);
    LetsGoExact(tr[i], tr[i + 1], m);
  }

  /** No medium-priority inversion: unless an unlock has just lowered a priority, a task
      that queued during the present ownership is never worse off than the task chosen to
      run while the owner is READY. */
  lemma NoInversion(tr: seq<Sys>, acts: seq<Action>, i: nat, m: nat, w: nat)
    requires IsRun(tr, acts) && Init(tr[0]) && FollowsOneMutex(tr, acts) && i < |tr|
    requires |tr[i].pcs| == |tr[i].k.tasks| && Bounds(tr[i].k) && !tr[i].lowered
    requires m < |tr[i].objs| && tr[i].objs[m].Mutex? && tr[i].objs[m].owner.Some?
    requires IsReady(tr[i].k.tasks, tr[i].objs[m].owner.value)
    requires w < |tr[i].k.tasks| && tr[i].k.tasks[w].on == Some(2 * m)
    requires tr[i].k.tasks[w].stamp >= tr[i].objs[m].since
    ensures tr[i].k.tasks[tr[i].objs[m].owner.value].prio <= tr[i].k.tasks[w].prio
    ensures tr[i].k.next != Idle(tr[i].k) && tr[i].k.tasks[tr[i].k.next].prio <= tr[i].k.tasks[w].prio
  {
    var s := tr[i];
    RunInv(tr, acts, i);
    RunExact(tr, acts, i);
    var o := s.objs[m].owner.value;
    assert MutexOk(s, s.objs[m]) && QueuedOk(s, m);
    BestIsLeast(s.base[o], s.objs[m].queued);
    assert PcOk(s, w) && TaskOk(s.k, w) && PcFits(s, w);
    assert LockPc(s.pcs[w]);
  }

  // ---- Order and hand-off ----

  /** Of two waiters of one list the one in front has the better priority, or the same and
      queued earlier, if nobody makes a call that may wait there while holding a mutex. */
  lemma ListsStaySorted(tr: seq<Sys>, acts: seq<Action>, n: nat, l: nat, i: nat, j: nat)
    requires IsRun(tr, acts) && Init(tr[0]) && FollowsFreeHanded(tr, acts, l) && n < |tr|
    requires l < |tr[n].k.lists| && i < j < |tr[n].k.lists[l]|
    ensures var q, tasks := tr[n].k.lists[l], tr[n].k.tasks;
      q[i] < |tasks| && q[j] < |tasks| && Before(tasks[q[i]], tasks[q[j]])
  {
    hide Apply, Init, HoldersAway;
    RunSorted(tr, acts, n, l);
    assert Ordered(tr[n].k.tasks, tr[n].k.lists[l]);
  }

  /** The list of a mutex, one of any number, stays sorted when nobody nests mutexes; holders
      may wait for anything else. */
  lemma MutexListsStaySorted(tr: seq<Sys>, acts: seq<Action>, n: nat, m: nat, i: nat, j: nat)
    requires IsRun(tr, acts) && Init(tr[0]) && FollowsOneMutex(tr, acts) && n < |tr|
    requires m < |tr[0].objs| && tr[0].objs[m].Mutex?
    requires 2 * m < |tr[n].k.lists| && i < j < |tr[n].k.lists[2 * m]|
    ensures var q, tasks := tr[n].k.lists[2 * m], tr[n].k.tasks;
      q[i] < |tasks| && q[j] < |tasks| && Before(tasks[q[i]], tasks[q[j]])
  {
    OneMutexIsFreeHanded(tr, acts, m);
    ListsStaySorted(tr, acts, n, 2 * m, i, j);
  }

  /** With one mutex in the system the owner is never worse than any waiter, old or new. */
  lemma OwnerNeverWorse(tr: seq<Sys>, acts: seq<Action>, i: nat, m: nat, w: nat)
    requires IsRun(tr, acts) && Init(tr[0]) && FollowsOneMutex(tr, acts) && i < |tr| && OnlyMutex(tr[0], m)
    requires m < |tr[i].objs| && tr[i].objs[m].Mutex? && tr[i].objs[m].owner.Some?
    requires w < |tr[i].k.tasks| && tr[i].k.tasks[w].on == Some(2 * m)
    ensures var o := tr[i].objs[m].owner.value;
      o < |tr[i].k.tasks| && tr[i].k.tasks[o].prio <= tr[i].k.tasks[w].prio
  {
    hide Apply, Init;
    RunFair(tr, acts, i, m);
  }

  /** Across a hand-off: while the only mutex is free and somebody waits, a woken task that is
      no worse than any waiter is about to retry. */
  lemma HeirNeverWorse(tr: seq<Sys>, acts: seq<Action>, i: nat, m: nat, w: nat)
    requires IsRun(tr, acts) && Init(tr[0]) && FollowsOneMutex(tr, acts) && i < |tr| && OnlyMutex(tr[0], m)
    requires m < |tr[i].objs| && tr[i].objs[m].Mutex? && tr[i].objs[m].owner.None?
    requires w < |tr[i].k.tasks| && tr[i].k.tasks[w].on == Some(2 * m)
    ensures |tr[i].pcs| == |tr[i].k.tasks|
    ensures exists t :: IsToken(tr[i], t, 2 * m) && tr[i].k.tasks[t].prio <= tr[i].k.tasks[w].prio
  {
    hide Apply, Init;
    RunFair(tr, acts, i, m);
    assert Sleeping(tr[i], 2 * m);
  }

  // ---- Event groups ----

  /** No listed waiter's condition holds on the present flags, in any state of any run: it lacks
      every flag of its mask, or one of them if it waits for all. */
  lemma NobodyMissesFlags(tr: seq<Sys>, acts: seq<Action>, i: nat, e: nat, t: nat)
    requires IsRun(tr, acts) && Init(tr[0]) && i < |tr|
    requires e < |tr[i].objs| && tr[i].objs[e].Group? && 2 * e < |tr[i].k.lists| && t in tr[i].k.lists[2 * e]
    ensures t < |tr[i].pcs| && Awaiting(tr[i].pcs[t]) && tr[i].pcs[t].op.e == e
    ensures !Wanted(tr[i].objs[e].bits, tr[i].pcs[t].op.mask, tr[i].pcs[t].op.mode)
  {
    hide Met, Wanted;
    var s := tr[i];
    RunEvents(tr, acts, i);
    var j :| 0 <= j < |s.k.lists[2 * e]| && s.k.lists[2 * e][j] == t;
    ListedAwaits(s, e, j);
    assert Unmet(s, t);
    MetIsWanted(s.objs[e].bits, s.pcs[t].op.mask, s.pcs[t].op.mode);
  }

  /** A resumed waiter that did not time out returns flags that met its condition. */
  lemma ResultMeetsMask(tr: seq<Sys>, acts: seq<Action>, i: nat, op: Op, slot: nat)
    requires IsRun(tr, acts) && Init(tr[0]) && i < |tr| && TaskRuns(tr[i])
    requires tr[i].pcs[tr[i].k.current] == Asleep(op, slot) && op.Await?
    requires !(op.p.Until? && tr[i].k.tasks[tr[i].k.current].timedOut)
    ensures slot < |tr[i].pool| && tr[i].pool[slot].Some?
    ensures Wanted(tr[i].pool[slot].value.observed, op.mask, op.mode)
  {
    hide Met, Wanted;
    RunEvents(tr, acts, i);
    RunnerAwake(tr[i]);
    assert SlotOk(tr[i], tr[i].k.current);
    MetIsWanted(tr[i].pool[slot].value.observed, op.mask, op.mode);
  }

  /** With as many slots as tasks, a call that has to wait always gets one. */
  lemma PoolNeverRunsOut(tr: seq<Sys>, acts: seq<Action>, i: nat)
    requires IsRun(tr, acts) && Init(tr[0]) && i < |tr| && TaskRuns(tr[i])
    requires tr[i].pcs[tr[i].k.current].Called?
    requires |tr[i].pool| >= |tr[i].k.tasks| - 1
    ensures FreeSlot(tr[i].pool) < |tr[i].pool|
  {
    RunEvents(tr, acts, i);
    SlotFree(tr[i]);
  }

  /** Since flag `b` of group `e` was last set, at most one auto-clear waiter observed it. */
  lemma FlagUsedOnce(tr: seq<Sys>, acts: seq<Action>, i: nat, e: nat, b: bv32)
    requires IsRun(tr, acts) && Init(tr[0]) && i < |tr|
    requires e < |tr[i].objs| && tr[i].objs[e].Group? && IsBit(b)
    ensures Uses(tr[i].log, e, b) <= 1
    ensures Has(tr[i].objs[e].bits, b) ==> Uses(tr[i].log, e, b) == 0
  {
    hide Uses, Has, IsBit;
    RunEvents(tr, acts, i);
  }
}
