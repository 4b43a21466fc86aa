/** The order of the wait lists, and who gets a mutex next. A list stays in priority order,
    first come first served among equals, as long as nobody who holds a mutex queues there;
    that is always so for the lists of mutexes when nobody nests them. In a system with one
    mutex no waiter is ever better than the owner, whoever takes the mutex after an unlock. */
module HandOff {
  import opened Selection
  import opened WaitQueue
  import opened Kernel
  import opened KernelLemmas
  import opened EventBits
  import opened Primitives
  import opened System
  import opened Integrity
  import opened IntegritySteps
  import opened Runs
  import opened Channels
  import opened Frames
  import opened Inheritance
  import opened Timing

  // ---- Ownership ----

  lemma TryOwnership(s: Sys, op: Op, m: nat)
    requires Shape(s) && TaskRuns(s) && Fits(s.objs, op) && m < |s.objs|
    ensures var r, c := TryOp(s, op), s.k.current;
      && r.objs[m].Mutex? == s.objs[m].Mutex?
      && (s.objs[m].Mutex? && r.objs[m].owner != s.objs[m].owner ==>
            op.Lock? && op.m == m && s.objs[m].owner.None? && r.objs[m].owner == Some(c) && r.pcs[c].User?)
      && (op.Lock? && op.m == m && op.p.Forever? && r.pcs[c].User? ==> r.objs[m].owner == Some(c))
  {
    hide PopWake, Block, Met, Without, Shaped, PcFits, OwnerFits;
  }

  /** A mutex changes hands in two ways only: a free one goes to the running task inside its
      own lock call, which thereby returns; and its owner gives it up by `mutex_unlock`. */
  lemma OwnershipMoves(s: Sys, a: Action, m: nat)
    requires Shape(s) && Enabled(s, a) && m < |s.objs|
    ensures var r, c := Apply(s, a), s.k.current;
      && r.objs[m].Mutex? == s.objs[m].Mutex?
      && (s.objs[m].Mutex? && r.objs[m].owner != s.objs[m].owner ==>
            || (a == Unlock(m) && s.objs[m].owner == Some(c) && r.objs[m].owner.None?)
            || (a.Continue? && CallsLock(s.pcs[c], m) && s.objs[m].owner.None? && r.objs[m].owner == Some(c)
                && r.pcs[c].User?))
  {
    hide PopWake, UnlockKernel, Sweep, TickN, Delay, Yield, Block, Wake, Inherit, TryOp, Shaped, OwnerFits;
    if a.Continue? {
      assert PcFits(s, s.k.current);
      if s.pcs[s.k.current].Called? || s.pcs[s.k.current].Asleep? {
        TryOwnership(s, s.pcs[s.k.current].op, m);
      }
    }
  }

  predicate CallsLock(pc: Pc, m: nat) {
    (pc.Called? || pc.Asleep?) && pc.op.Lock? && pc.op.m == m
  }

  // ---- Order, list by list ----

  /** The task is in a call that may put it on list `l`. */
  predicate MayQueue(pc: Pc, l: nat) {
    CallOf(pc).Some? && ListOf(CallOf(pc).value) == l && !CallOf(pc).value.p.Never?
  }

  ghost predicate HoldersAway(s: Sys, l: nat) {
    forall t :: 0 <= t < |s.pcs| && Holds(s, t) ==> !MayQueue(s.pcs[t], l)
  }

  /** What list `l` asks of callers: no call that may wait there while holding a mutex. */
  ghost predicate FreeHanded(s: Sys, a: Action, l: nat) {
    a.Call? && MayQueue(Called(a.op), l) ==> !Holds(s, s.k.current)
  }

  lemma HoldersAreOff(s: Sys, l: nat)
    requires SysInv(s) && HoldersAway(s, l)
    ensures OwnersOff(s, l)
  {
    forall m | 0 <= m < |s.objs| && s.objs[m].Mutex? && s.objs[m].owner.Some? && s.objs[m].owner.value < |s.k.tasks|
      ensures s.k.tasks[s.objs[m].owner.value].on != Some(l)
    {
      var o := s.objs[m].owner.value;
      assert Holds(s, o) && PcOk(s, o) && TaskOk(s.k, o) && PcFits(s, o);
    }
  }

  /** A task enters the kernel by its own call. */
  lemma CallBegins(s: Sys, a: Action, t: nat)
    requires Shape(s) && Enabled(s, a) && t < |s.pcs| && CallOf(s.pcs[t]).None?
    ensures var q := Apply(s, a).pcs[t];
      CallOf(q).Some? ==> a.Call? && t == s.k.current && q == Called(a.op)
  {
    hide PopWake, UnlockKernel, Sweep, TickN, Delay, Yield, Block, Wake, Inherit, TryOp, Shaped, OwnerFits;
    if a.Continue? {
      assert PcFits(s, s.k.current);
      if s.pcs[s.k.current].Called? || s.pcs[s.k.current].Asleep? {
        SameCallTry(s, s.pcs[s.k.current].op);
      }
    }
  }

  lemma StepHolders(s: Sys, a: Action, l: nat)
    requires SysInv(s) && HoldersAway(s, l) && Enabled(s, a) && FreeHanded(s, a, l)
    ensures HoldersAway(Apply(s, a), l)
  {
    hide Apply, PcOk, Inv, WakersDiffer;
    var r := Apply(s, a);
    forall t | 0 <= t < |r.pcs| && Holds(r, t) ensures !MayQueue(r.pcs[t], l) {
      if CallOf(s.pcs[t]).Some? {
        SameCall(s, a, t);
      } else {
        CallBegins(s, a, t);
      }
      var m :| 0 <= m < |r.objs| && r.objs[m].Mutex? && r.objs[m].owner == Some(t);
      OwnershipMoves(s, a, m);
      if s.objs[m].owner == Some(t) {
        assert Holds(s, t);
      }
    }
  }

  ghost predicate FollowsFreeHanded(tr: seq<Sys>, acts: seq<Action>, l: nat) {
    |tr| == |acts| + 1 && forall i :: 0 <= i < |acts| ==> FreeHanded(tr[i], acts[i], l)
  }

  /** A list on which no holder queues is in priority order in every state, and first come
      first served among equals. */
  lemma {:induction false} RunSorted(tr: seq<Sys>, acts: seq<Action>, i: nat, l: nat)
    requires IsRun(tr, acts) && Init(tr[0]) && FollowsFreeHanded(tr, acts, l) && i < |tr|
    ensures SysInv(tr[i]) && HoldersAway(tr[i], l) && Sorted(tr[i].k, l)
  {
    hide Sorted, Apply, Holds;
    RunInv(tr, acts, i);
    if i == 0 {
      InitInv(tr[0]);
      NobodyHolds(tr[0], l);
    } else {
      RunSorted(tr, acts, i - 1, l);
      HoldersAreOff(tr[i - 1], l);
      StepCore(tr[i - 1], acts[i - 1]);
      StepHolders(tr[i - 1], acts[i - 1], l);
    }
  }

  lemma NobodyHolds(s: Sys, l: nat)
    requires Init(s)
    ensures HoldersAway(s, l)
  {
  }

  lemma {:induction false} MutexStays(tr: seq<Sys>, acts: seq<Action>, i: nat, m: nat)
    requires IsRun(tr, acts) && Init(tr[0]) && i < |tr| && m < |tr[0].objs| && tr[0].objs[m].Mutex?
    ensures m < |tr[i].objs| && tr[i].objs[m].Mutex?
  {
    hide Apply, Init;
    if i > 0 {
      MutexStays(tr, acts, i - 1, m);
      OwnershipMoves(tr[i - 1], acts[i - 1], m);
    }
  }

  /** Not nesting mutexes is all that the list of a mutex needs: a holder may wait elsewhere. */
  lemma OneMutexIsFreeHanded(tr: seq<Sys>, acts: seq<Action>, m: nat)
    requires IsRun(tr, acts) && Init(tr[0]) && FollowsOneMutex(tr, acts) && m < |tr[0].objs| && tr[0].objs[m].Mutex?
    ensures FollowsFreeHanded(tr, acts, 2 * m)
  {
    hide Apply, Init, Holds;
    forall i | 0 <= i < |acts| ensures FreeHanded(tr[i], acts[i], 2 * m) {
      MutexStays(tr, acts, i, m);
      assert OneMutex(tr[i], acts[i]) && Enabled(tr[i], acts[i]);
    }
  }

  // ---- One mutex in the system ----

  lemma CallerHoldsNone(s: Sys, c: nat)
    requires Exact(s) && c < |s.pcs| && LockPc(s.pcs[c])
    ensures !Holds(s, c)
  {
  }

  ghost predicate OnlyMutex(s: Sys, m: nat) {
    m < |s.objs| && s.objs[m].Mutex? && forall o :: 0 <= o < |s.objs| && s.objs[o].Mutex? ==> o == m
  }

  /** Task `t` is at least as good as every waiter of the mutex. */
  ghost predicate NoWorse(s: Sys, m: nat, t: nat) {
    && t < |s.k.tasks|
    && forall w :: 0 <= w < |s.k.tasks| && s.k.tasks[w].on == Some(2 * m) ==> s.k.tasks[t].prio <= s.k.tasks[w].prio
  }

  /** The owner is no worse than any waiter; a free mutex with waiters has a woken task no
      worse than any of them; and a priority has been lowered only when nobody waits. */
  ghost predicate Fair(s: Sys, m: nat)
    requires Shape(s) && m < |s.objs|
  {
    && s.objs[m].Mutex?
    && (s.lowered ==> !Sleeping(s, 2 * m))
    && (s.objs[m].owner.Some? ==> NoWorse(s, m, s.objs[m].owner.value))
    && (s.objs[m].owner.None? && Sleeping(s, 2 * m) ==>
          exists t: nat :: t < |s.pcs| && IsToken(s, t, 2 * m) && NoWorse(s, m, t))
  }

  /** Priorities as before, no new waiter, no token lost, nothing lowered. */
  lemma QuietFair(s: Sys, r: Sys, m: nat, c: nat)
    requires Shape(s) && Shape(r) && OnlyMutex(s, m) && Fair(s, m) && Calm(s, r, c) && c < |s.pcs|
    requires |r.objs| == |s.objs| && r.objs[m] == s.objs[m]
    requires forall t :: 0 <= t < |s.pcs| ==> r.k.tasks[t].prio == s.k.tasks[t].prio
    requires r.k.tasks[c].on == Some(2 * m) ==> s.k.tasks[c].on == Some(2 * m)
    requires !IsToken(s, c, 2 * m) || r.objs[m].owner.Some?
    requires r.lowered ==> s.lowered
    ensures Fair(r, m)
  {
    if r.objs[m].owner.None? && Sleeping(r, 2 * m) {
      var t: nat :| t < |s.pcs| && IsToken(s, t, 2 * m) && NoWorse(s, m, t);
      assert IsToken(r, t, 2 * m) && NoWorse(r, m, t);
    }
  }

  /** Only an unlock that wakes nobody leaves a lowered priority behind. */
  lemma LoweredByUnlock(s: Sys, a: Action)
    requires Shape(s) && Enabled(s, a) && !a.Unlock?
    ensures Apply(s, a).lowered ==> s.lowered
  {
    hide PopWake, Wake, Block, Sweep, TickN, Delay, Yield;
    assert a.Continue? ==> PcFits(s, s.k.current);
  }

  /** Whoever takes the free mutex runs, so is at least as good as the woken task. */
  lemma AcquirerNoWorse(s: Sys, m: nat)
    requires SysInv(s) && Ranked(s) && m < |s.objs| && Fair(s, m) && s.objs[m].owner.None? && TaskRuns(s)
    ensures NoWorse(s, m, s.k.current)
  {
    if Sleeping(s, 2 * m) {
      var t: nat :| t < |s.pcs| && IsToken(s, t, 2 * m) && NoWorse(s, m, t);
      assert PcOk(s, t) && PcFits(s, t);
      assert t == s.k.next || IsReady(s.k.tasks, t);
    }
  }

  lemma NotAToken(s: Sys, a: Action, m: nat)
    requires SysInv(s) && Enabled(s, a) && !MutexAction(s, a) && m < |s.objs| && s.objs[m].Mutex?
    ensures !IsToken(s, Actor(s, a), 2 * m)
  {
    assert PcFits(s, Actor(s, a));
  }

  lemma NonMutexFair(s: Sys, a: Action, m: nat)
    requires SysInv(s) && OnlyMutex(s, m) && Fair(s, m) && Enabled(s, a) && !MutexAction(s, a)
    ensures SysInv(Apply(s, a)) && OnlyMutex(Apply(s, a), m) && Fair(Apply(s, a), m)
  {
    hide Apply, Fair;
    NonMutexFrame(s, a);
    LoweredByUnlock(s, a);
    var c, r := Actor(s, a), Apply(s, a);
    NoMutexList(s, a, r, c);
    NotAToken(s, a, m);
    QuietFair(s, r, m, c);
  }

  /** Unlocking hands over to the head of the list, which is its best task. */
  lemma UnlockFair(s: Sys, m: nat)
    requires SysInv(s) && Exact(s) && Sorted(s.k, 2 * m) && OnlyMutex(s, m) && Fair(s, m)
    requires Enabled(s, Unlock(m))
    ensures SysInv(UnlockBy(s, m)) && OnlyMutex(UnlockBy(s, m), m) && Fair(UnlockBy(s, m), m)
  {
    hide Exact, PcOk, UnlockKernel, WakersDiffer;
    var r := UnlockBy(s, m);
    StepCore(s, Unlock(m));
    UnlockLetsGo(s, m);
    UnlockHeadOff(s, m);
    if s.k.lists[2 * m] == [] {
      NobodyOn(s, 2 * m);
    } else {
      var h := s.k.lists[2 * m][0];
      PoppedIsToken(s, r, h, 2 * m);
      HeadBest(s, r, m);
    }
  }

  lemma UnlockHeadOff(s: Sys, m: nat)
    requires SysInv(s) && Enabled(s, Unlock(m))
    ensures s.k.lists[2 * m] != [] ==> HeadOff(s.k, 2 * m, UnlockKernel(s.k, s.objs[m], 2 * m))
    ensures s.k.lists[2 * m] != [] ==>
      s.k.lists[2 * m][0] < |s.k.tasks| && s.k.tasks[s.k.lists[2 * m][0]].on == Some(2 * m)
  {
    hide PopWake, Restore, PcOk, WakersDiffer, Sorted, Ranked, Decided;
    var x := s.objs[m];
    if s.k.lists[2 * m] != [] {
      RunnerAwake(s);
      RestoreCore(s, m);
      PopRestore(s.k, x, 2 * m);
      PopWakeHeadOff(Restore(s.k, x), 2 * m);
      RestoreHeadOff(s.k, x, 2 * m, PopWake(Restore(s.k, x), 2 * m));
      assert ListOk(s.k, 2 * m);
    }
  }

  lemma HeadBest(s: Sys, r: Sys, m: nat)
    requires SysInv(s) && Sorted(s.k, 2 * m) && LetsGo(s, r, m) && TaskRuns(s) && s.k.lists[2 * m] != []
    requires s.k.lists[2 * m][0] < |s.k.tasks| && s.k.tasks[s.k.lists[2 * m][0]].on == Some(2 * m)
    ensures NoWorse(r, m, s.k.lists[2 * m][0])
  {
    hide PcOk, WakersDiffer, OneRunning;
    RunnerAwake(s);
    var h := s.k.lists[2 * m][0];
    assert Ordered(s.k.tasks, s.k.lists[2 * m]);
    forall w | 0 <= w < |r.k.tasks| && r.k.tasks[w].on == Some(2 * m) ensures r.k.tasks[h].prio <= r.k.tasks[w].prio {
      OnList(s.k, w, 2 * m);
      var i :| 0 <= i < |s.k.lists[2 * m]| && s.k.lists[2 * m][i] == w;
      assert i == 0 || Before(s.k.tasks[h], s.k.tasks[w]);
    }
  }

  lemma AcquireFair(s: Sys, r: Sys, m: nat)
    requires SysInv(s) && Ranked(s) && OnlyMutex(s, m) && Fair(s, m) && TaskRuns(s) && s.objs[m].owner.None?
    requires Shape(r) && Kin(s, r) && r.objs == s.objs[m := Acquire(s.k, s.objs[m])] && r.lowered == s.lowered
    requires forall t :: 0 <= t < |s.pcs| ==> r.k.tasks[t] == s.k.tasks[t].(head := r.k.tasks[t].head)
    ensures Fair(r, m)
  {
    AcquirerNoWorse(s, m);
  }

  lemma QueuesBehindFair(s: Sys, r: Sys, m: nat)
    requires SysInv(s) && Exact(s) && OnlyMutex(s, m) && Fair(s, m) && TaskRuns(s)
    requires QueuesBehind(s, r, m) && Shape(r) && !r.lowered && !Holds(s, s.k.current)
    ensures Fair(r, m)
  {
    hide Exact, PcOk, WakersDiffer;
    var o := s.objs[m].owner.value;
    assert Holds(s, o);
    assert NoWorse(r, m, o);
  }

  lemma LockMovesFair(s: Sys, r: Sys, m: nat)
    requires SysInv(s) && OnlyMutex(s, m) && Fair(s, m) && TaskRuns(s)
    requires Shape(r) && Kin(s, r) && r.objs == s.objs && r.lowered == s.lowered
    requires r.pcs == s.pcs[s.k.current := r.pcs[s.k.current]]
    requires forall t :: 0 <= t < |s.pcs| ==>
      && r.k.tasks[t] == s.k.tasks[t].(head := r.k.tasks[t].head, timedOut := r.k.tasks[t].timedOut)
      && (t != s.k.current ==> r.k.tasks[t].timedOut == s.k.tasks[t].timedOut)
    requires !IsToken(s, s.k.current, 2 * m) || s.objs[m].owner.Some?
    ensures Fair(r, m)
  {
    QuietFair(s, r, m, s.k.current);
  }

  lemma LockFair(s: Sys, m: nat)
    requires SysInv(s) && Ranked(s) && Exact(s) && OnlyMutex(s, m) && Fair(s, m)
    requires TaskRuns(s) && LockPc(s.pcs[s.k.current])
    ensures SysInv(Advance(s)) && OnlyMutex(Advance(s), m) && Fair(Advance(s), m)
  {
    hide Exact, PcOk, Inv, WakersDiffer, Fair, Block, Inherit, Ranked;
    StepCore(s, Continue);
    var c, r := s.k.current, Advance(s);
    assert PcFits(s, c);
    match s.pcs[c] {
      case Called(op) => LockTryFair(s, op, m);
      case Slow(op) =>
        if Passed(s, op.p) || s.objs[op.m].owner.None? {
          LockMovesFair(s, r, m);
        } else {
          LockBlocks(s, op);
          CallerHoldsNone(s, c);
          QueuesBehindFair(s, r, m);
        }
      case Asleep(op, slot) =>
        if op.p.Until? && s.k.tasks[c].timedOut {
          LockMovesFair(s, r, m);
        } else {
          LockTryFair(s, op, m);
        }
      case _ => assert false;
    }
  }

  lemma LockTryFair(s: Sys, op: Op, m: nat)
    requires SysInv(s) && Ranked(s) && OnlyMutex(s, m) && Fair(s, m) && TaskRuns(s)
    requires Fits(s.objs, op) && op.Lock? && Shape(LockTry(s, op))
    ensures Fair(LockTry(s, op), m)
  {
    hide PcOk, Inv, WakersDiffer, Fair, Ranked;
    if s.objs[op.m].owner.None? {
      AcquireFair(s, LockTry(s, op), m);
    } else {
      LockMovesFair(s, LockTry(s, op), m);
    }
  }

  lemma StepFair(s: Sys, a: Action, m: nat)
    requires SysInv(s) && Ranked(s) && Exact(s) && Sorted(s.k, 2 * m) && OnlyMutex(s, m) && Fair(s, m)
    requires Enabled(s, a)
    ensures SysInv(Apply(s, a)) && OnlyMutex(Apply(s, a), m) && Fair(Apply(s, a), m)
  {
    hide Exact, Sorted, Ranked, Fair, Advance, UnlockBy;
    if !MutexAction(s, a) {
      NonMutexFair(s, a, m);
    } else if a.Unlock? {
      UnlockFair(s, m);
    } else {
      LockFair(s, m);
    }
  }

  /** Hand-off is fair in every state of every run. */
  lemma {:induction false} RunFair(tr: seq<Sys>, acts: seq<Action>, i: nat, m: nat)
    requires IsRun(tr, acts) && Init(tr[0]) && FollowsOneMutex(tr, acts) && i < |tr| && OnlyMutex(tr[0], m)
    ensures OnlyMutex(tr[i], m) && Shape(tr[i]) && Fair(tr[i], m)
  {
    hide Sorted, Exact, Apply;
    RunInv(tr, acts, i);
    if i == 0 {
      InitFair(tr[0], m);
    } else {
      RunFair(tr, acts, i - 1, m);
      OneMutexIsFreeHanded(tr, acts, m);
      RunSorted(tr, acts, i - 1, 2 * m);
      RunExact(tr, acts, i - 1);
      RunInv(tr, acts, i - 1);
      StepFair(tr[i - 1], acts[i - 1], m);
    }
  }

  lemma InitFair(s: Sys, m: nat)
    requires Init(s) && OnlyMutex(s, m)
    ensures Fair(s, m)
  {
    assert forall t :: 0 <= t < |s.k.tasks| ==> s.k.tasks[t].on.None?;
    assert match s.objs[m] case Mutex(owner, _, _, _, _) => owner.None? case _ => true;
  }
}
