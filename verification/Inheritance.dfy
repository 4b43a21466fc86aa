/** Priority inheritance is exact: over every run in which a task locks a mutex only while
    it holds none, an owner's priority is the best of its own and those of all tasks that
    queued during its ownership, and everybody else has their own priority. */
module Inheritance {
  import opened Selection
  import opened Kernel
  import opened KernelLemmas
  import opened Effects
  import opened EventBits
  import opened Primitives
  import opened System
  import opened Integrity
  import opened IntegritySteps
  import opened Runs
  import opened Channels
  import opened Frames
  import opened Arithmetic

  ghost predicate Holds(s: Sys, t: nat) {
    exists m :: 0 <= m < |s.objs| && s.objs[m].Mutex? && s.objs[m].owner == Some(t)
  }

  /** What the caller has to respect: no second mutex. */
  ghost predicate OneMutex(s: Sys, a: Action) {
    a.Call? && a.op.Lock? ==> !Holds(s, s.k.current)
  }

  /** The best (smallest) of `p` and all of `q`. */
  function Best(p: nat, q: seq<nat>): nat {
    if q == [] then p else Min(Best(p, q[..|q| - 1]), q[|q| - 1])
  }

  lemma {:induction false} BestIsLeast(p: nat, q: seq<nat>)
    ensures Best(p, q) <= p && (forall x :: x in q ==> Best(p, q) <= x)
    ensures Best(p, q) == p || Best(p, q) in q
  {
    if q != [] {
      BestIsLeast(p, q[..|q| - 1]);
      assert q == q[..|q| - 1] + [q[|q| - 1]];
    }
  }

  ghost predicate MutexOk(s: Sys, m: Object)
    requires |s.base| == |s.k.tasks|
  {
    if m.Mutex? && m.owner.Some? then
      var o := m.owner.value;
      && o < |s.k.tasks|
      && s.k.tasks[o].prio == Best(s.base[o], m.queued)
      && (if m.elevated then m.saved == s.base[o] else s.k.tasks[o].prio == s.base[o])
      && m.since <= s.k.clock
    else m.Mutex? ==> !m.elevated
  }

  /** A waiter that queued during the present ownership is on record. */
  ghost predicate QueuedOk(s: Sys, m: nat)
    requires |s.base| == |s.k.tasks| && m < |s.objs| && s.objs[m].Mutex?
  {
    s.objs[m].owner.Some? ==>
      forall w :: 0 <= w < |s.k.tasks| && s.k.tasks[w].on == Some(2 * m) && s.k.tasks[w].stamp >= s.objs[m].since
        ==> s.base[w] in s.objs[m].queued
  }

  ghost predicate Exact(s: Sys) {
    && |s.base| == |s.k.tasks| == |s.pcs|
    && (forall m :: 0 <= m < |s.objs| ==> MutexOk(s, s.objs[m]))
    && (forall m :: 0 <= m < |s.objs| && s.objs[m].Mutex? ==> QueuedOk(s, m))
    && (forall m, n :: 0 <= m < n < |s.objs| && s.objs[m].Mutex? && s.objs[n].Mutex? && s.objs[m].owner.Some?
          ==> s.objs[m].owner != s.objs[n].owner)
    && (forall t :: 0 <= t < |s.k.tasks| && !Holds(s, t) ==> s.k.tasks[t].prio == s.base[t])
    && (forall t :: 0 <= t < |s.pcs| && LockPc(s.pcs[t]) ==> !Holds(s, t))
    && (forall t :: 0 <= t < |s.k.tasks| ==> s.k.tasks[t].stamp < s.k.clock)
  }

  /** The mutexes are as before, so the same tasks hold them. */
  ghost predicate SameMutexes(s: Sys, r: Sys) {
    && |r.objs| == |s.objs|
    && forall o :: 0 <= o < |s.objs| && (s.objs[o].Mutex? || r.objs[o].Mutex?) ==> r.objs[o] == s.objs[o]
  }

  lemma HoldersSame(s: Sys, r: Sys, t: nat)
    requires SameMutexes(s, r)
    ensures Holds(r, t) <==> Holds(s, t)
  {
    if Holds(s, t) {
      var m :| 0 <= m < |s.objs| && s.objs[m].Mutex? && s.objs[m].owner == Some(t);
      assert r.objs[m] == s.objs[m];
    }
    if Holds(r, t) {
      var m :| 0 <= m < |r.objs| && r.objs[m].Mutex? && r.objs[m].owner == Some(t);
      assert r.objs[m] == s.objs[m];
    }
  }

  /** Priorities and mutexes are as before; `c` may have moved, and queued elsewhere. */
  lemma SameExact(s: Sys, r: Sys, c: nat)
    requires Exact(s) && SameMutexes(s, r) && r.base == s.base && c < |s.pcs| && |r.pcs| == |s.pcs|
    requires |r.k.tasks| == |s.k.tasks| && r.k.clock >= s.k.clock
    requires forall t :: 0 <= t < |s.pcs| ==> r.k.tasks[t].prio == s.k.tasks[t].prio && r.k.tasks[t].stamp < r.k.clock
    requires forall t :: 0 <= t < |s.pcs| && t != c ==>
      && r.pcs[t] == s.pcs[t] && r.k.tasks[t].stamp == s.k.tasks[t].stamp
      && (r.k.tasks[t].on == s.k.tasks[t].on || r.k.tasks[t].on.None?)
    requires LockPc(r.pcs[c]) ==> !Holds(s, c)
    requires forall m :: 0 <= m < |s.objs| && s.objs[m].Mutex? ==> r.k.tasks[c].on != Some(2 * m)
    ensures Exact(r)
  {
    forall t | 0 <= t < |s.pcs| ensures Holds(r, t) <==> Holds(s, t) {
      HoldersSame(s, r, t);
    }
    forall m | 0 <= m < |r.objs| ensures MutexOk(r, r.objs[m]) && (r.objs[m].Mutex? ==> QueuedOk(r, m)) {
      assert MutexOk(s, s.objs[m]) && (s.objs[m].Mutex? ==> QueuedOk(s, m));
    }
  }

  lemma TryPc(s: Sys, op: Op)
    requires Shape(s) && TaskRuns(s) && Fits(s.objs, op) && !op.Lock?
    ensures !LockPc(TryOp(s, op).pcs[s.k.current])
  {
    hide Block, PopWake, Met, Without;
  }

  lemma ContinuePc(s: Sys)
    requires Shape(s) && TaskRuns(s) && !LockPc(s.pcs[s.k.current])
    ensures !LockPc(Advance(s).pcs[s.k.current])
  {
    hide Wake, TryOp;
    assert PcFits(s, s.k.current);
    if s.pcs[s.k.current].Called? || s.pcs[s.k.current].Asleep? {
      TryPc(s, s.pcs[s.k.current].op);
    }
  }

  lemma NonMutexExact(s: Sys, a: Action)
    requires SysInv(s) && Exact(s) && Enabled(s, a) && OneMutex(s, a) && !MutexAction(s, a)
    ensures Exact(Apply(s, a))
  {
    hide Advance, Holds;
    NonMutexFrame(s, a);
    var c, r := Actor(s, a), Apply(s, a);
    NoMutexList(s, a, r, c);
    if a.Continue? {
      ContinuePc(s);
    }
    LockPcOnlyByCall(s, a);
    SameExact(s, r, c);
  }

  /** The acting task does not join the list of a mutex. */
  lemma NoMutexList(s: Sys, a: Action, r: Sys, c: nat)
    requires SysInv(s) && SysInv(r) && Enabled(s, a) && c == Actor(s, a) && !MutexAction(s, a)
    requires Frame(s, r, c, PoppedList(s, a))
    ensures forall m :: 0 <= m < |s.objs| && s.objs[m].Mutex? ==> r.k.tasks[c].on != Some(2 * m)
  {
    assert TaskOk(r.k, c) && TaskOk(s.k, c);
  }

  lemma LockPcOnlyByCall(s: Sys, a: Action)
    requires SysInv(s) && Enabled(s, a) && !MutexAction(s, a)
    requires a.Continue? ==> !LockPc(Apply(s, a).pcs[s.k.current])
    ensures LockPc(Apply(s, a).pcs[Actor(s, a)]) ==> a.Call? && a.op.Lock?
  {
    hide Advance, Delay, Yield, TickN, PopWake, Sweep;
    StepCore(s, a);
  }

  // ---- The actions on a mutex ----

  /** A lock call that only moves: it fails the try, gives up, or starts over. */
  lemma LockMovesExact(s: Sys, r: Sys)
    requires SysInv(s) && SysInv(r) && Exact(s) && TaskRuns(s) && LockPc(s.pcs[s.k.current])
    requires Kin(s, r) && r.objs == s.objs && r.k.clock == s.k.clock
    requires r.pcs == s.pcs[s.k.current := r.pcs[s.k.current]]
    requires forall t :: 0 <= t < |s.pcs| ==>
      r.k.tasks[t] == s.k.tasks[t].(head := r.k.tasks[t].head, timedOut := r.k.tasks[t].timedOut)
    ensures Exact(r)
  {
    RunnerAwake(s);
    SameExact(s, r, s.k.current);
  }

  /** A free mutex is taken by a task that holds none. */
  lemma AcquireExact(s: Sys, r: Sys, m: nat)
    requires SysInv(s) && SysInv(r) && Exact(s) && TaskRuns(s) && LockPc(s.pcs[s.k.current])
    requires m < |s.objs| && s.objs[m].Mutex? && s.objs[m].owner.None?
    requires Kin(s, r) && r.objs == s.objs[m := Acquire(s.k, s.objs[m])] && r.k.clock == s.k.clock
    requires r.pcs == s.pcs[s.k.current := User]
    requires forall t :: 0 <= t < |s.pcs| ==> r.k.tasks[t] == s.k.tasks[t].(head := r.k.tasks[t].head)
    ensures Exact(r)
  {
    var c := s.k.current;
    assert !Holds(s, c);
    forall t | 0 <= t < |s.pcs| && t != c ensures Holds(r, t) <==> Holds(s, t) {
      HolderElsewhere(s, r, m, t);
    }
    assert r.objs[m].owner == Some(c);
    forall n | 0 <= n < |r.objs| ensures MutexOk(r, r.objs[n]) && (r.objs[n].Mutex? ==> QueuedOk(r, n)) {
      assert MutexOk(s, s.objs[n]) && (s.objs[n].Mutex? ==> QueuedOk(s, n));
    }
  }

  lemma HolderElsewhere(s: Sys, r: Sys, m: nat, t: nat)
    requires m < |s.objs| && |r.objs| == |s.objs| && r.objs == s.objs[m := r.objs[m]]
    requires s.objs[m].Mutex? ==> s.objs[m].owner != Some(t)
    requires r.objs[m].Mutex? ==> r.objs[m].owner != Some(t)
    ensures Holds(r, t) <==> Holds(s, t)
  {
    if Holds(s, t) {
      var n :| 0 <= n < |s.objs| && s.objs[n].Mutex? && s.objs[n].owner == Some(t);
      assert r.objs[n] == s.objs[n];
    }
    if Holds(r, t) {
      var n :| 0 <= n < |r.objs| && r.objs[n].Mutex? && r.objs[n].owner == Some(t);
      assert r.objs[n] == s.objs[n];
    }
  }

  /** The running task queues behind the owner, whose priority becomes no worse. */
  ghost predicate QueuesBehind(s: Sys, r: Sys, m: nat)
    requires |s.base| == |s.k.tasks|
  {
    var c := s.k.current;
    && m < |s.objs| && s.objs[m].Mutex? && s.objs[m].owner.Some? && s.objs[m].owner.value < |s.k.tasks|
    && Kin(s, r) && c < |s.pcs| && c < |s.k.tasks|
    && (var o, p := s.objs[m].owner.value, s.k.tasks[c].prio;
        var better := p < s.k.tasks[o].prio;
        && r.objs == s.objs[m := s.objs[m].(
             queued := s.objs[m].queued + [p],
             saved := if better && !s.objs[m].elevated then s.k.tasks[o].prio else s.objs[m].saved,
             elevated := better || s.objs[m].elevated)]
        && (forall t :: 0 <= t < |s.k.tasks| ==>
              && r.k.tasks[t].prio == (if t == o && better then p else s.k.tasks[t].prio)
              && (t != c ==>
                    && r.k.tasks[t].on == s.k.tasks[t].on && r.k.tasks[t].stamp == s.k.tasks[t].stamp
                    && r.k.tasks[t].timedOut == s.k.tasks[t].timedOut)))
    && r.k.tasks[c].on == Some(2 * m) && r.k.tasks[c].stamp == s.k.clock && r.k.clock == s.k.clock + 1
    && r.pcs == s.pcs[c := r.pcs[c]]
  }

  lemma QueuesBehindExact(s: Sys, r: Sys, m: nat)
    requires SysInv(s) && Exact(s) && TaskRuns(s) && LockPc(s.pcs[s.k.current]) && QueuesBehind(s, r, m)
    ensures Exact(r)
  {
    hide Holds, Inv, PcOk, WakersDiffer, MutexOk, QueuedOk, Shaped, PcFits;
    OwnerHolds(s, m);
    forall t | 0 <= t < |s.pcs| ensures Holds(r, t) <==> Holds(s, t) {
      OwnersSame(s, r, m, t);
    }
    forall n: nat | n < |r.objs| ensures MutexOk(r, r.objs[n]) && (r.objs[n].Mutex? ==> QueuedOk(r, n)) {
      QueuesBehindAt(s, r, m, n);
    }
  }

  lemma OwnerHolds(s: Sys, m: nat)
    requires m < |s.objs| && s.objs[m].Mutex? && s.objs[m].owner.Some?
    ensures Holds(s, s.objs[m].owner.value)
  {
  }

  lemma QueuesBehindAt(s: Sys, r: Sys, m: nat, n: nat)
    requires SysInv(s) && Exact(s) && TaskRuns(s) && LockPc(s.pcs[s.k.current]) && QueuesBehind(s, r, m) && n < |s.objs|
    ensures MutexOk(r, r.objs[n]) && (r.objs[n].Mutex? ==> QueuedOk(r, n))
  {
    hide Holds, Inv, PcOk, WakersDiffer, Shaped, PcFits;
    assert MutexOk(s, s.objs[n]) && (s.objs[n].Mutex? ==> QueuedOk(s, n));
    if n == m {
      var q := s.objs[m].queued;
      assert (q + [s.k.tasks[s.k.current].prio])[..|q|] == q;
      BestIsLeast(s.base[s.objs[m].owner.value], q);
    }
  }

  lemma OwnersSame(s: Sys, r: Sys, m: nat, t: nat)
    requires m < |s.objs| && s.objs[m].Mutex? && |r.objs| == |s.objs| && r.objs == s.objs[m := r.objs[m]]
    requires r.objs[m].Mutex? && r.objs[m].owner == s.objs[m].owner
    ensures Holds(r, t) <==> Holds(s, t)
  {
    if Holds(s, t) {
      var n :| 0 <= n < |s.objs| && s.objs[n].Mutex? && s.objs[n].owner == Some(t);
      assert r.objs[n].owner == s.objs[n].owner;
    }
    if Holds(r, t) {
      var n :| 0 <= n < |r.objs| && r.objs[n].Mutex? && r.objs[n].owner == Some(t);
      assert r.objs[n].owner == s.objs[n].owner;
    }
  }

  /** The owner lets go and gets back the priority it had. */
  ghost predicate LetsGo(s: Sys, r: Sys, m: nat) {
    var c := s.k.current;
    && m < |s.objs| && s.objs[m].Mutex? && s.objs[m].owner == Some(c)
    && Kin(s, r) && c < |s.k.tasks| && r.pcs == s.pcs && r.k.clock == s.k.clock
    && r.objs == s.objs[m := Release(s.objs[m])]
    && forall t :: 0 <= t < |s.k.tasks| ==>
         && r.k.tasks[t].prio == (if t == c && s.objs[m].elevated then s.objs[m].saved else s.k.tasks[t].prio)
         && r.k.tasks[t].stamp == s.k.tasks[t].stamp && r.k.tasks[t].timedOut == s.k.tasks[t].timedOut
         && (r.k.tasks[t].on == s.k.tasks[t].on || (r.k.tasks[t].on.None? && s.k.tasks[t].on == Some(2 * m)))
  }

  lemma LetsGoExact(s: Sys, r: Sys, m: nat)
    requires SysInv(s) && Exact(s) && LetsGo(s, r, m)
    ensures Exact(r) && r.k.tasks[s.k.current].prio == r.base[s.k.current] && !Holds(r, s.k.current)
  {
    var c := s.k.current;
    forall t | 0 <= t < |s.pcs| && t != c ensures Holds(r, t) <==> Holds(s, t) {
      HolderElsewhere(s, r, m, t);
    }
    forall n | 0 <= n < |r.objs| ensures MutexOk(r, r.objs[n]) && (r.objs[n].Mutex? ==> QueuedOk(r, n)) {
      assert MutexOk(s, s.objs[n]) && (s.objs[n].Mutex? ==> QueuedOk(s, n)) && MutexOk(s, s.objs[m]);
    }
  }

  lemma LockBlocks(s: Sys, op: Op)
    requires SysInv(s) && TaskRuns(s) && s.pcs[s.k.current] == Slow(op) && Fits(s.objs, op) && op.Lock?
    requires !Passed(s, op.p) && s.objs[op.m].owner.Some?
    ensures QueuesBehind(s, LockSlow(s, op), op.m)
  {
    hide Block, PcOk, WakersDiffer;
    var m := s.objs[op.m];
    InheritInv(s, m);
    var k := Inherit(s.k, m).0;
    LinkedShaped(k);
    BlockEffect(k, ListOf(op), ArmFor(s, op));
  }

  lemma UnlockKernelRanks(s: Sys, m: nat)
    requires SysInv(s) && Enabled(s, Unlock(m))
    ensures var x, k := s.objs[m], UnlockKernel(s.k, s.objs[m], 2 * m);
      && |k.tasks| == |s.k.tasks| && k.clock == s.k.clock
      && forall t :: 0 <= t < |s.k.tasks| ==>
           && k.tasks[t].prio == Restore(s.k, x).tasks[t].prio
           && k.tasks[t].stamp == Restore(s.k, x).tasks[t].stamp
           && k.tasks[t].timedOut == Restore(s.k, x).tasks[t].timedOut
           && (k.tasks[t].on == Restore(s.k, x).tasks[t].on
               || (k.tasks[t].on.None? && Restore(s.k, x).tasks[t].on == Some(2 * m)))
  {
    hide PopWake, Restore, PcOk, WakersDiffer, Sorted, Ranked, Decided;
    var x := s.objs[m];
    RunnerAwake(s);
    RestoreCore(s, m);
    PopRestore(s.k, x, 2 * m);
    PopWakeRank(Restore(s.k, x), 2 * m);
    PopWakeWaits(Restore(s.k, x), 2 * m);
    assert ListOk(Restore(s.k, x), 2 * m);
  }

  lemma UnlockLetsGo(s: Sys, m: nat)
    requires SysInv(s) && Enabled(s, Unlock(m))
    ensures LetsGo(s, UnlockBy(s, m), m)
  {
    hide UnlockKernel, PcOk, WakersDiffer, OneRunning, ListOk, TaskOk;
    UnlockKernelRanks(s, m);
  }

  lemma LockContinueExact(s: Sys)
    requires SysInv(s) && Exact(s) && TaskRuns(s) && LockPc(s.pcs[s.k.current]) && SysInv(Advance(s))
    ensures Exact(Advance(s))
  {
    hide PcOk, Inv, WakersDiffer, LockSlow, Exact;
    var c := s.k.current;
    assert PcFits(s, c);
    var r := Advance(s);
    match s.pcs[c] {
      case Called(op) => LockTryExact(s, op);
      case Slow(op) => LockSlowExact(s, op);
      case Asleep(op, slot) =>
        if op.p.Until? && s.k.tasks[c].timedOut {
          LockMovesExact(s, r);
        } else {
          LockTryExact(s, op);
        }
      case _ => assert false;
    }
  }

  lemma LockTryExact(s: Sys, op: Op)
    requires SysInv(s) && Exact(s) && TaskRuns(s) && LockPc(s.pcs[s.k.current]) && Fits(s.objs, op) && op.Lock?
    requires SysInv(LockTry(s, op))
    ensures Exact(LockTry(s, op))
  {
    hide PcOk, Inv, WakersDiffer, Exact;
    if s.objs[op.m].owner.None? {
      AcquireExact(s, LockTry(s, op), op.m);
    } else {
      LockMovesExact(s, LockTry(s, op));
    }
  }

  lemma LockSlowExact(s: Sys, op: Op)
    requires SysInv(s) && Exact(s) && TaskRuns(s) && s.pcs[s.k.current] == Slow(op) && Fits(s.objs, op) && op.Lock?
    requires SysInv(LockSlow(s, op))
    ensures Exact(LockSlow(s, op))
  {
    hide PcOk, Inv, WakersDiffer, Exact, Block, Inherit;
    if Passed(s, op.p) || s.objs[op.m].owner.None? {
      LockMovesExact(s, LockSlow(s, op));
    } else {
      LockBlocks(s, op);
      QueuesBehindExact(s, LockSlow(s, op), op.m);
    }
  }

  lemma StepExact(s: Sys, a: Action)
    requires SysInv(s) && Exact(s) && Enabled(s, a) && OneMutex(s, a)
    ensures Exact(Apply(s, a))
  {
    hide Exact, Advance, UnlockBy, OneMutex;
    if !MutexAction(s, a) {
      NonMutexExact(s, a);
    } else if a.Unlock? {
      UnlockLetsGo(s, a.m);
      LetsGoExact(s, UnlockBy(s, a.m), a.m);
    } else {
      StepCore(s, a);
      LockContinueExact(s);
    }
  }

  ghost predicate FollowsOneMutex(tr: seq<Sys>, acts: seq<Action>) {
    |tr| == |acts| + 1 && forall i :: 0 <= i < |acts| ==> OneMutex(tr[i], acts[i])
  }

  lemma InitExact(s: Sys)
    requires Init(s)
    ensures Exact(s)
  {
    forall m | 0 <= m < |s.objs| ensures s.objs[m].Mutex? ==> s.objs[m].owner.None? && !s.objs[m].elevated {
    }
  }

  /** Inheritance is exact in every state of every run in which nobody nests mutexes. */
  lemma {:induction false} RunExact(tr: seq<Sys>, acts: seq<Action>, i: nat)
    requires IsRun(tr, acts) && Init(tr[0]) && FollowsOneMutex(tr, acts) && i < |tr|
    ensures SysInv(tr[i]) && Exact(tr[i])
  {
    RunInv(tr, acts, i);
    if i == 0 {
      InitExact(tr[0]);
    } else {
      RunExact(tr, acts, i - 1);
      StepExact(tr[i - 1], acts[i - 1]);
    }
  }

  lemma {:induction false} BaseFixed(tr: seq<Sys>, acts: seq<Action>, i: nat)
    requires IsRun(tr, acts) && i < |tr|
    ensures tr[i].base == tr[0].base
  {
    hide Apply;
    if i > 0 {
      BaseFixed(tr, acts, i - 1);
      assert tr[i] == Apply(tr[i - 1], acts[i - 1]);
    }
  }
}
