/** The invariant of every reachable state: wait-list integrity, one RUNNING task, and for
    each task an agreement between where it is, what it waits for, and until when. */
module Integrity {
  import opened Selection
  import opened Kernel
  import opened KernelLemmas
  import opened Ticks
  import opened Primitives
  import opened System

  ghost predicate Awake(x: Tcb) {
    !x.state.Blocked? && x.on.None?
  }

  /** Some task has popped `t` from a queue's list and is about to wake it. */
  ghost predicate InFlight(s: Sys, t: int) {
    exists u :: 0 <= u < |s.pcs| && s.pcs[u].Waking? && s.pcs[u].w == t
  }

  ghost predicate QueueWait(pc: Pc) {
    pc.Asleep? && (pc.op.Send? || pc.op.Recv?) && pc.op.p.Forever?
  }

  /** Time `at` shows as the deadline `due` does on the 32-bit clock, and the clock does not wrap
      before it. */
  predicate Heads(now: nat, at: nat, due: nat) {
    at % Timers.TWO32 == due % Timers.TWO32 && at / Timers.TWO32 == now / Timers.TWO32
  }

  /** A sleeper is on the list of its call until it is woken or its time is up: a timed one is up
      when the clock shows its deadline. */
  ghost predicate SleeperOk(s: Sys, t: int, op: Op)
    requires Shape(s) && 0 <= t < |s.pcs|
  {
    var x := s.k.tasks[t];
    if x.on.Some? then
      && x.on == Some(ListOf(op))
      && if op.p.Until? then x.delay > 0 && Heads(s.now, s.now + x.delay, op.p.due) && !x.timedOut else x.delay == 0
    else
      && x.delay == 0
      && (x.state.Blocked? ==> QueueWait(s.pcs[t]) && InFlight(s, t))
  }

  ghost predicate PcOk(s: Sys, t: int)
    requires Shape(s) && 0 <= t < |s.pcs|
  {
    var x := s.k.tasks[t];
    match s.pcs[t]
    case User => Awake(x)
    case Called(_) => Awake(x)
    case Slow(_) => Awake(x)
    case Delaying(until) =>
      && x.on.None?
      && if x.state.Blocked? then x.delay > 0 && s.now + x.delay == until else s.now >= until
    case Asleep(op, _) => SleeperOk(s, t, op)
    case Waking(w, _) =>
      && Awake(x)
      && w < |s.pcs|
      && QueueWait(s.pcs[w]) && s.k.tasks[w].on.None? && s.k.tasks[w].state.Blocked?
  }

  /** Nobody is woken by two tasks. */
  ghost predicate WakersDiffer(s: Sys) {
    forall u, v :: 0 <= u < v < |s.pcs| && s.pcs[u].Waking? && s.pcs[v].Waking? ==> s.pcs[u].w != s.pcs[v].w
  }

  ghost predicate SysInv(s: Sys) {
    && Shape(s)
    && Inv(s.k)
    && (forall t :: 0 <= t < |s.pcs| ==> PcOk(s, t))
    && WakersDiffer(s)
    && s.pcs[|s.pcs| - 1].User?
  }

  // ---- Parts of a step ----

  predicate SameKind(a: Object, b: Object) {
    a.Mutex? == b.Mutex? && a.Semaphore? == b.Semaphore? && a.Queue? == b.Queue? && a.Group? == b.Group?
  }

  /** As far as its waiting goes, a task is as before. */
  ghost predicate SameWait(x: Tcb, y: Tcb) {
    (y.state.Blocked? <==> x.state.Blocked?) && y.delay == x.delay && y.on == x.on && y.timedOut == x.timedOut
  }

  /** Same tasks, time, objects by kind, and pool size. */
  ghost predicate SameFrame(s: Sys, r: Sys) {
    && |r.k.tasks| == |s.k.tasks| && |r.k.lists| == |s.k.lists| && r.k.current == s.k.current
    && |r.pcs| == |s.pcs| && |r.base| == |s.base| && |r.pool| == |s.pool| && |r.objs| == |s.objs|
    && (forall o :: 0 <= o < |s.objs| ==>
          SameKind(s.objs[o], r.objs[o]) && OwnerFits(r.objs[o], |s.k.tasks|))
    && r.now == s.now
  }

  lemma FrameShape(s: Sys, r: Sys)
    requires Shape(s) && Linked(r.k) && SameFrame(s, r)
    requires forall t :: 0 <= t < |r.pcs| && r.pcs[t] != s.pcs[t] ==> PcFits(r, t)
    ensures Shape(r)
  {
    LinkedShaped(r.k);
    forall t | 0 <= t < |r.pcs| ensures PcFits(r, t) {
      assert PcFits(s, t);
    }
  }

  /** Nobody's wait changes. */
  lemma QuietStep(s: Sys, r: Sys)
    requires SysInv(s) && Inv(r.k) && SameFrame(s, r) && r.pcs == s.pcs
    requires forall t :: 0 <= t < |s.pcs| ==> SameWait(s.k.tasks[t], r.k.tasks[t])
    ensures SysInv(r)
  {
    FrameShape(s, r);
    forall t | 0 <= t < |r.pcs| ensures PcOk(r, t) {
      assert PcOk(s, t);
    }
  }

  /** An awake task `c` that is not about to wake anybody goes elsewhere. */
  lemma OneMoves(s: Sys, r: Sys, c: nat)
    requires SysInv(s) && Inv(r.k) && SameFrame(s, r) && c < |s.pcs| - 1
    requires !s.k.tasks[c].state.Blocked? && !s.pcs[c].Waking?
    requires r.pcs == s.pcs[c := r.pcs[c]] && !r.pcs[c].Waking?
    requires forall t :: 0 <= t < |s.pcs| && t != c ==> SameWait(s.k.tasks[t], r.k.tasks[t])
    requires PcFits(r, c)
    requires Shape(r) ==> PcOk(r, c)
    ensures SysInv(r)
  {
    FrameShape(s, r);
    forall t | 0 <= t < |r.pcs| ensures PcOk(r, t) {
      assert PcOk(s, t);
      if t != c && InFlight(s, t) {
        var u :| 0 <= u < |s.pcs| && s.pcs[u].Waking? && s.pcs[u].w == t;
        assert r.pcs[u] == s.pcs[u];
      }
    }
  }

  /** A linked task `w` is woken. */
  lemma OneWoken(s: Sys, r: Sys, w: nat)
    requires SysInv(s) && Inv(r.k) && SameFrame(s, r) && w < |s.pcs| && r.pcs == s.pcs
    requires s.k.tasks[w].on.Some?
    requires forall t :: 0 <= t < |s.pcs| && t != w ==> SameWait(s.k.tasks[t], r.k.tasks[t])
    requires !r.k.tasks[w].state.Blocked? && r.k.tasks[w].on.None? && r.k.tasks[w].delay == 0
    requires r.k.tasks[w].timedOut == s.k.tasks[w].timedOut
    ensures SysInv(r)
  {
    FrameShape(s, r);
    forall t | 0 <= t < |r.pcs| ensures PcOk(r, t) {
      assert PcOk(s, t);
    }
  }

  /** Task `c` pops an untimed queue waiter `w` and goes on to wake it. */
  lemma OnePopped(s: Sys, r: Sys, c: nat, w: nat)
    requires SysInv(s) && Inv(r.k) && SameFrame(s, r) && c < |s.pcs| - 1 && w < |s.pcs|
    requires !s.k.tasks[c].state.Blocked? && !s.pcs[c].Waking?
    requires s.k.tasks[w].on.Some? && s.k.tasks[w].delay == 0 && QueueWait(s.pcs[w])
    requires r.pcs == s.pcs[c := r.pcs[c]] && r.pcs[c].Waking? && r.pcs[c].w == w
    requires forall t :: 0 <= t < |s.pcs| && t != w && t != c ==> SameWait(s.k.tasks[t], r.k.tasks[t])
    requires Awake(r.k.tasks[c])
    requires r.k.tasks[w].state.Blocked? && r.k.tasks[w].on.None? && r.k.tasks[w].delay == 0
    ensures SysInv(r)
  {
    FrameShape(s, r);
    forall t | 0 <= t < |r.pcs| ensures PcOk(r, t) {
      assert PcOk(s, t);
      assert r.pcs[c].Waking?;
      if InFlight(s, t) {
        var u :| 0 <= u < |s.pcs| && s.pcs[u].Waking? && s.pcs[u].w == t;
        assert r.pcs[u] == s.pcs[u];
      }
    }
    forall u | 0 <= u < |r.pcs| && s.pcs[u].Waking? ensures s.pcs[u].w != w {
      assert PcOk(s, u);
    }
  }

  /** Task `c` wakes the waiter it popped earlier. */
  lemma OneDelivered(s: Sys, r: Sys, c: nat)
    requires SysInv(s) && Inv(r.k) && SameFrame(s, r) && c < |s.pcs| - 1
    requires s.pcs[c].Waking? && r.pcs == s.pcs[c := User]
    requires forall t :: 0 <= t < |s.pcs| && t != s.pcs[c].w ==> SameWait(s.k.tasks[t], r.k.tasks[t])
    requires s.pcs[c].w < |s.pcs| && Awake(r.k.tasks[s.pcs[c].w]) && r.k.tasks[s.pcs[c].w].delay == 0
    ensures SysInv(r)
  {
    var w := s.pcs[c].w;
    FrameShape(s, r);
    assert PcOk(s, c);
    forall t | 0 <= t < |r.pcs| ensures PcOk(r, t) {
      assert PcOk(s, t);
      if t != w && InFlight(s, t) {
        var u :| 0 <= u < |s.pcs| && s.pcs[u].Waking? && s.pcs[u].w == t;
        assert r.pcs[u] == s.pcs[u];
      }
    }
  }

  /** `ms` milliseconds pass, no more than any running delay. */
  lemma TimePasses(s: Sys, r: Sys, ms: nat)
    requires SysInv(s) && ms > 0 && WithinBudget(s.k, ms)
    requires r == s.(k := r.k, now := s.now + ms, lowered := r.lowered)
    requires Inv(r.k) && AgedState(s.k, ms, r.k)
    ensures SysInv(r)
  {
    LinkedShaped(r.k);
    forall t | 0 <= t < |r.pcs| ensures PcFits(r, t) {
      assert PcFits(s, t);
    }
    forall t | 0 <= t < |r.pcs| ensures PcOk(r, t) {
      assert PcOk(s, t) && TaskOk(s.k, t);
      if InFlight(s, t) {
        var u :| 0 <= u < |s.pcs| && s.pcs[u].Waking? && s.pcs[u].w == t;
        assert r.pcs[u].Waking? && r.pcs[u].w == t;
      }
      if s.pcs[t].Waking? {
        assert PcOk(s, s.pcs[t].w) && TaskOk(s.k, s.pcs[t].w);
      }
    }
  }
}
