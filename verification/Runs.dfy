/** Runs of the machine, and the invariant over all of them. */
module Runs {
  import opened Selection
  import opened WaitQueue
  import opened Kernel
  import opened KernelLemmas
  import opened Ticks
  import opened Effects
  import opened EventBits
  import opened Primitives
  import opened System
  import opened Integrity
  import opened IntegritySteps

  lemma ResumeCore(s: Sys, op: Op, slot: nat)
    requires SysInv(s) && TaskRuns(s) && s.pcs[s.k.current] == Asleep(op, slot)
    requires Fits(s.objs, op) && (op.Await? ==> slot < |s.pool|)
    ensures Core(s, Resume(s, op, slot))
  {
    hide TryOp, Core;
    var c := s.k.current;
    var r := Resume(s, op, slot);
    assert s.k.tasks == s.k.tasks[c := s.k.tasks[c]];
    if op.p.Until? && s.k.tasks[c].timedOut {
      MoveCore(s, r, s.k.tasks[c].(timedOut := false, head := None));
    } else if op.Await? {
      MoveCore(s, r, s.k.tasks[c]);
    } else {
      TryOpCore(s, op);
    }
  }

  /** The second half of a queue operation: the popped waiter is woken. */
  lemma WakingCore(s: Sys, w: nat, op: Op)
    requires SysInv(s) && TaskRuns(s) && s.pcs[s.k.current] == Waking(w, op) && w < |s.pcs|
    ensures Core(s, Finish(s.(k := Wake(s.k, w), lowered := false), op.p))
  {
    hide Wake, Sorted, Decided;
    var c := s.k.current;
    RunnerAwake(s);
    assert PcOk(s, c) && PcOk(s, w) && TaskOk(s.k, w);
    WakeInv(s.k, w);
    WakeEffect(s.k, w);
    var k := Wake(s.k, w);
    var x := if op.p.Until? then k.tasks[c].(head := None) else k.tasks[c];
    assert k.tasks == k.tasks[c := k.tasks[c]];
    assert TaskOk(k, c);
    SetTaskLinked(k, c, x);
    SetTaskSorted(k, c, x);
    TidyDecided(k, c, x);
    OneDelivered(s, Finish(s.(k := k, lowered := false), op.p), c);
  }

  lemma TidyDecided(k: State, c: nat, x: Tcb)
    requires Bounds(k) && c < |k.tasks| && (x == k.tasks[c] || x == k.tasks[c].(head := None))
    ensures Decided(k) ==> Decided(SetTask(k, c, x))
  {
  }

  lemma AdvanceCore(s: Sys)
    requires SysInv(s) && TaskRuns(s) && !s.pcs[s.k.current].User?
    ensures Core(s, Advance(s))
  {
    hide TryOp, LockSlow, Resume, Finish, Core, Wake;
    var c := s.k.current;
    assert PcFits(s, c);
    assert s.k.tasks == s.k.tasks[c := s.k.tasks[c]];
    match s.pcs[c]
    case Delaying(_) => MoveCore(s, Goto(s, User), s.k.tasks[c]);
    case Called(op) => TryOpCore(s, op);
    case Slow(op) => LockSlowCore(s, op);
    case Asleep(op, slot) => ResumeCore(s, op, slot);
    case Waking(w, op) => WakingCore(s, w, op);
  }

  /** The unlocker's priority goes back to the saved one. */
  lemma RestoreCore(s: Sys, m: nat)
    requires SysInv(s) && TaskRuns(s) && m < |s.objs| && s.objs[m].Mutex? && s.objs[m].owner == Some(s.k.current)
    ensures var r := s.(k := Restore(s.k, s.objs[m]), objs := s.objs[m := Release(s.objs[m])],
                        lowered := s.objs[m].elevated || s.lowered);
      && SysInv(r) && KeepsOrder(s.k, r.k) && (Ranked(s) ==> Ranked(r))
      && (forall t :: 0 <= t < |s.pcs| ==> r.k.tasks[t] == s.k.tasks[t].(prio := r.k.tasks[t].prio))
      && r.k.lists == s.k.lists && r.k.current == s.k.current && r.k.next == s.k.next && r.k.clock == s.k.clock
  {
    var x := s.objs[m];
    var c := s.k.current;
    var r := s.(k := Restore(s.k, x), objs := s.objs[m := Release(x)], lowered := x.elevated || s.lowered);
    RunnerAwake(s);
    if x.elevated {
      assert OwnerFits(x, |s.k.tasks|) && TaskOk(s.k, c);
      SetTaskLinked(s.k, c, s.k.tasks[c].(prio := x.saved));
      PrioSorted(s.k, c, x.saved);
    }
    QuietStep(s, r);
  }

  lemma UnlockCore(s: Sys, m: nat)
    requires SysInv(s) && Enabled(s, Unlock(m))
    ensures Core(s, UnlockBy(s, m))
  {
    hide Sorted, Decided, PopWake, Restore;
    var x := s.objs[m];
    RunnerAwake(s);
    RestoreCore(s, m);
    var i := s.(k := Restore(s.k, x), objs := s.objs[m := Release(x)], lowered := x.elevated || s.lowered);
    PopRestore(s.k, x, 2 * m);
    PopWakeCore(i, 2 * m, i.objs);
  }

  /** Popping the waiter and restoring the owner do not interfere. */
  lemma PopRestore(k: State, m: Object, l: nat)
    requires Linked(k) && m.Mutex? && m.owner.Some? && m.owner.value < |k.tasks|
    requires k.tasks[m.owner.value].on.None?
    requires l < |k.lists|
    ensures InRange(k.lists[l], |k.tasks|) && UnlockKernel(k, m, l) == PopWake(Restore(k, m), l)
  {
    assert ListOk(k, l);
    if k.lists[l] != [] {
      assert Restore(Pop(k, l), m).tasks == Pop(Restore(k, m), l).tasks;
    }
  }

  lemma DelayCore(s: Sys, ms: nat)
    requires SysInv(s) && Enabled(s, StartDelay(ms))
    ensures Core(s, Apply(s, StartDelay(ms)))
  {
    hide Delay, Sorted, Decided;
    RunnerAwake(s);
    DelayInv(s.k, ms);
    DelayEffect(s.k, ms);
    OneMoves(s, Apply(s, StartDelay(ms)), s.k.current);
  }

  lemma YieldCore(s: Sys)
    requires SysInv(s) && Enabled(s, YieldNow)
    ensures Core(s, Apply(s, YieldNow))
  {
    hide Yield, Sorted, Decided;
    RunnerAwake(s);
    YieldInv(s.k);
    YieldEffect(s.k);
    QuietStep(s, Apply(s, YieldNow));
  }

  // ---- event_set ----

  /** One waiter woken, seen as a step of the machine. */
  lemma SweepWakeCore(s: Sys, w: Swept, e: nat, i: nat)
    requires e < |s.objs| && s.objs[e].Group? && SysInv(Embed(s, w, e))
    requires i < |w.k.lists[2 * e]| && Satisfied(w, 2 * e, i)
    ensures Shaped(w.k)
    ensures var r := SweepWake(w, 2 * e, i);
      SysInv(Embed(s, r, e)) && Decided(r.k) && KeepsOrder(w.k, r.k) && |r.pool| == |w.pool|
  {
    hide Met, Without, Wake, Sorted, Decided;
    SweepWakeEffect(w, 2 * e, i);
    OneWoken(Embed(s, w, e), Embed(s, SweepWake(w, 2 * e, i), e), w.k.lists[2 * e][i]);
  }

  lemma {:induction false} SweepCore(s: Sys, w: Swept, e: nat, i: nat)
    requires e < |s.objs| && s.objs[e].Group? && SysInv(Embed(s, w, e))
    ensures Shaped(w.k)
    ensures var r := Sweep(w, 2 * e, i);
      && SysInv(Embed(s, r, e)) && |r.pool| == |w.pool|
      && KeepsOrder(w.k, r.k)
      && |r.k.lists[2 * e]| <= |w.k.lists[2 * e]|
      && (if |r.k.lists[2 * e]| == |w.k.lists[2 * e]| then r.k == w.k else Decided(r.k))
    decreases |w.k.lists[2 * e]| - i
  {
    hide SweepWake, Satisfied, Sorted, Decided;
    if i < |w.k.lists[2 * e]| {
      if Satisfied(w, 2 * e, i) {
        SweepWakeCore(s, w, e, i);
        SweepCore(s, SweepWake(w, 2 * e, i), e, i);
      } else {
        SweepCore(s, w, e, i + 1);
      }
    }
  }

  lemma SetFlagsCore(s: Sys, e: nat, bits: bv32)
    requires SysInv(s) && Enabled(s, SetBits(e, bits))
    ensures Core(s, SetFlags(s, e, bits))
  {
    hide Sweep, Sorted, Decided, PcOk, Inv;
    var w := SweepStart(s, e, bits);
    StartCore(s, e, bits);
    SweepCore(s, w, e, 0);
    var v := Sweep(w, 2 * e, 0);
    FlagOnly(Embed(s, v, e), s.lowered && |v.k.lists[2 * e]| == |s.k.lists[2 * e]|);
  }

  lemma StartCore(s: Sys, e: nat, bits: bv32)
    requires SysInv(s) && Enabled(s, SetBits(e, bits))
    ensures SysInv(Embed(s, SweepStart(s, e, bits), e))
  {
    QuietStep(s, Embed(s, SweepStart(s, e, bits), e));
  }

  lemma FlagOnly(s: Sys, flag: bool)
    requires SysInv(s)
    ensures SysInv(s.(lowered := flag))
  {
    QuietStep(s, s.(lowered := flag));
  }

  // ---- The step ----

  lemma TimeCore(s: Sys, ms: nat)
    requires SysInv(s) && ms > 0 && WithinBudget(s.k, ms)
    ensures Core(s, s.(k := TickN(s.k, ms), now := s.now + ms, lowered := false))
  {
    hide TickN, Sorted, Decided;
    TickInv(s.k, ms);
    TickAges(s.k, ms);
    TimePasses(s, s.(k := TickN(s.k, ms), now := s.now + ms, lowered := false), ms);
  }

  lemma GiveCore(s: Sys, x: nat)
    requires SysInv(s) && x < |s.objs| && s.objs[x].Semaphore?
    ensures Core(s, Give(s, x))
  {
    PopWakeCore(s, 2 * x, s.objs[x := GiveOne(s.objs[x])]);
  }

  lemma QueueIsrCore(s: Sys, q: nat, items: seq<RingBuffer.Item>, l: nat)
    requires SysInv(s) && q < |s.objs| && s.objs[q].Queue? && l < |s.k.lists|
    ensures Core(s, QueueFromIsr(s, q, items, l))
  {
    PopWakeCore(s, l, s.objs[q := s.objs[q].(items := items)]);
  }

  /** Every enabled action keeps wait-list integrity, the one RUNNING task, and the
      agreement between program points, lists and deadlines. */
  lemma StepCore(s: Sys, a: Action)
    requires SysInv(s) && Enabled(s, a)
    ensures Core(s, Apply(s, a))
  {
    hide Core, Advance, UnlockBy, SetFlags, Give, QueueFromIsr, Delay, Yield, TickN;
    match a
    case Call(op) =>
      assert s.k.tasks == s.k.tasks[s.k.current := s.k.tasks[s.k.current]];
      MoveCore(s, Goto(s, Called(op)), s.k.tasks[s.k.current]);
    case Continue => AdvanceCore(s);
    case Unlock(m) => UnlockCore(s, m);
    case StartDelay(ms) => DelayCore(s, ms);
    case YieldNow => YieldCore(s);
    case IsrGive(x) => GiveCore(s, x);
    case IsrTake(x) => QuietCore(s, Apply(s, a));
    case IsrSend(q, item) => QueueIsrCore(s, q, s.objs[q].items + [item], 2 * q);
    case IsrRecv(q) => QueueIsrCore(s, q, s.objs[q].items[1..], 2 * q + 1);
    case SetBits(e, bits) => SetFlagsCore(s, e, bits);
    case ClearBits(e, bits) => QuietCore(s, Apply(s, a));
    case Tick => TimeCore(s, 1);
    case Sleep(ms) => TimeCore(s, ms);
    case PendSv => DeliverCore(s);
  }

  lemma QuietCore(s: Sys, r: Sys)
    requires SysInv(s) && SameFrame(s, r) && r == s.(objs := r.objs)
    ensures Core(s, r)
  {
    QuietStep(s, r);
  }

  lemma DeliverCore(s: Sys)
    requires SysInv(s)
    ensures Core(s, s.(k := Deliver(s.k)))
  {
    var r := s.(k := Deliver(s.k));
    forall l | 0 <= l < |r.k.lists| ensures ListOk(r.k, l) {
      assert ListOk(s.k, l);
    }
    forall t | 0 <= t < |r.pcs| ensures TaskOk(r.k, t) && PcFits(r, t) {
      assert TaskOk(s.k, t) && PcFits(s, t);
    }
    forall t | 0 <= t < |r.pcs| ensures PcOk(r, t) {
      assert PcOk(s, t);
    }
  }

  // ---- Runs ----

  /** The states and actions of a run, the first state given. */
  ghost predicate IsRun(tr: seq<Sys>, acts: seq<Action>) {
    && |tr| == |acts| + 1
    && forall i :: 0 <= i < |acts| ==>
         Shape(tr[i]) && Enabled(tr[i], acts[i]) && tr[i + 1] == Apply(tr[i], acts[i])
  }

  /** What `sched_start` finds: nobody waits, every mutex is free, and the task it has
      chosen is RUNNING while all others are READY. */
  ghost predicate Init(s: Sys) {
    && Shape(s)
    && s.k.current == s.k.next
    && (forall t :: 0 <= t < |s.k.tasks| ==>
          && s.k.tasks[t].state == (if t == s.k.next then Running else Ready)
          && s.k.tasks[t].delay == 0 && s.k.tasks[t].on.None? && s.k.tasks[t].prio < NO_PRIO
          && s.k.tasks[t].stamp < s.k.clock && s.base[t] == s.k.tasks[t].prio && s.pcs[t].User?)
    && Decided(s.k)
    && (forall l :: 0 <= l < |s.k.lists| ==> s.k.lists[l] == [])
    && (forall o :: 0 <= o < |s.objs| ==> match s.objs[o]
          case Mutex(owner, _, elevated, _, _) => owner.None? && !elevated
          case Semaphore(count, max, given, taken) => 0 <= count <= max && given == 0 && taken == 0
          case Queue(items, _) => items == []
          case Group(_) => true)
    && (forall i :: 0 <= i < |s.pool| ==> s.pool[i].None?)
    && s.log == [] && !s.lowered
  }

  lemma InitInv(s: Sys)
    requires Init(s)
    ensures SysInv(s) && (forall l: nat :: Sorted(s.k, l)) && Ranked(s)
  {
  }

  /** Every state of every run satisfies the invariant, and its choice is a best READY
      task unless an unlock has lowered a priority since the last decision. */
  lemma {:induction false} RunInv(tr: seq<Sys>, acts: seq<Action>, i: nat)
    requires IsRun(tr, acts) && Init(tr[0]) && i < |tr|
    ensures SysInv(tr[i]) && Ranked(tr[i])
  {
    if i == 0 {
      InitInv(tr[0]);
    } else {
      RunInv(tr, acts, i - 1);
      StepCore(tr[i - 1], acts[i - 1]);
    }
  }

  /** An unlock of an elevated mutex that finds nobody to wake. */
  predicate Lowers(s: Sys, a: Action) {
    && a.Unlock? && a.m < |s.objs| && s.objs[a.m].Mutex? && s.objs[a.m].elevated
    && 2 * a.m < |s.k.lists| && s.k.lists[2 * a.m] == []
  }

  lemma LoweredBy(s: Sys, a: Action)
    requires Shape(s) && Enabled(s, a) && !s.lowered && Apply(s, a).lowered
    ensures Lowers(s, a)
  {
    hide PopWake, Sweep, TickN, Delay, Yield, UnlockKernel, Wake, Block, Inherit, Met, Shaped, OwnerFits;
  }

  /** In a run without such an unlock the choice is a best READY task in every state. */
  lemma {:induction false} BestRuns(tr: seq<Sys>, acts: seq<Action>, i: nat)
    requires IsRun(tr, acts) && Init(tr[0]) && i < |tr|
    requires forall j :: 0 <= j < |acts| ==> !Lowers(tr[j], acts[j])
    ensures Bounds(tr[i].k) && !tr[i].lowered
    ensures forall t :: IsReady(tr[i].k.tasks, t) ==>
      tr[i].k.next != Idle(tr[i].k) && tr[i].k.tasks[tr[i].k.next].prio <= tr[i].k.tasks[t].prio
  {
    hide Apply;
    RunInv(tr, acts, i);
    if i > 0 {
      BestRuns(tr, acts, i - 1);
      if tr[i].lowered {
        LoweredBy(tr[i - 1], acts[i - 1]);
      }
    }
  }

  /** Task `t` waits in exactly one way: linked, delayed, or popped from a queue and about to
      be woken by somebody. */
  ghost predicate WaitsOneWay(s: Sys, t: int)
    requires Shape(s) && 0 <= t < |s.pcs|
  {
    var x := s.k.tasks[t];
    || (x.on.Some? && x.on.value < |s.k.lists| && t in s.k.lists[x.on.value])
    || (x.on.None? && x.delay > 0 && s.pcs[t].Delaying?)
    || (x.on.None? && x.delay == 0 && QueueWait(s.pcs[t]) && InFlight(s, t))
  }

  /** No task is on two lists, or twice on one. */
  ghost predicate Apart(k: State) {
    forall l, m, i, j ::
      0 <= l < |k.lists| && 0 <= m < |k.lists| && 0 <= i < |k.lists[l]| && 0 <= j < |k.lists[m]| ==>
        k.lists[l][i] == k.lists[m][j] ==> l == m && i == j
  }

  /** Linked tasks are blocked, and a running timeout knows the list it will be taken out of. */
  ghost predicate MembersWait(k: State) {
    forall l, i :: 0 <= l < |k.lists| && 0 <= i < |k.lists[l]| ==> MemberWaits(k, l, i)
  }

  ghost predicate MemberWaits(k: State, l: int, i: int)
    requires 0 <= l < |k.lists| && 0 <= i < |k.lists[l]|
  {
    var t := k.lists[l][i];
    t < |k.tasks| - 1 && k.tasks[t].state.Blocked? && (k.tasks[t].delay > 0 ==> k.tasks[t].head == Some(l))
  }

  /** Wait-list integrity in every reachable state; and a blocked task waits in one of three
      ways. */
  lemma WaitListsIntact(tr: seq<Sys>, acts: seq<Action>, n: nat)
    requires IsRun(tr, acts) && Init(tr[0]) && n < |tr|
    ensures Shape(tr[n]) && Apart(tr[n].k) && MembersWait(tr[n].k)
    ensures forall t :: 0 <= t < |tr[n].pcs| && tr[n].k.tasks[t].state.Blocked? ==> WaitsOneWay(tr[n], t)
  {
    RunInv(tr, acts, n);
    var s := tr[n];
    ListsIntact(s.k);
    forall t | 0 <= t < |s.pcs| && s.k.tasks[t].state.Blocked? ensures WaitsOneWay(s, t) {
      assert PcOk(s, t) && TaskOk(s.k, t);
    }
  }

  lemma ListsIntact(k: State)
    requires Inv(k)
    ensures Apart(k) && MembersWait(k)
  {
    forall l, m, i, j | 0 <= l < |k.lists| && 0 <= m < |k.lists|
      && 0 <= i < |k.lists[l]| && 0 <= j < |k.lists[m]| && k.lists[l][i] == k.lists[m][j]
      ensures l == m && i == j
    {
      assert ListOk(k, l) && ListOk(k, m);
    }
    forall l, i | 0 <= l < |k.lists| && 0 <= i < |k.lists[l]| ensures MemberWaits(k, l, i) {
      assert ListOk(k, l) && TaskOk(k, k.lists[l][i]);
    }
  }

  /** `sched_wait_list_remove` with a stale list head removes nothing. */
  lemma StaleHeadRemovesNothing(k: State, t: nat, l: nat)
    requires Inv(k) && t < |k.tasks| && l < |k.lists|
    ensures Shaped(k) && (Unlink(k, t, l) == k <==> k.tasks[t].on != Some(l))
  {
    LinkedShaped(k);
    OnList(k, t, l);
    var i := IndexOf(k.lists[l], t);
    if i < |k.lists[l]| {
      assert Unlink(k, t, l).tasks[t].on.None?;
    }
  }
}
