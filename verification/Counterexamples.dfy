/** Where the kernel needs its callers' discipline: each condition below is exact. */
module Counterexamples {
  import opened Selection
  import opened WaitQueue
  import opened Kernel
  import opened KernelLemmas
  import opened Ticks
  import opened Effects
  import opened Primitives
  import opened System
  import opened Integrity
  import opened IntegritySteps
  import opened Runs
  import opened Scenarios
  import opened Timers
  import opened TimerRuns
  import opened Tickless

  // ---- Priority 0xFF ----

  /** A READY task can be chosen only with a priority below 0xFF. */
  lemma WorstPriorityNeverRuns(tasks: seq<Tcb>, current: nat, t: nat)
    requires |tasks| > 0 && current < |tasks| && t < |tasks| - 1 && tasks[t].prio >= 0xFF
    ensures Select(tasks, current) != t
  {
    SelectIsChoice(tasks, current);
  }

  // ---- A waiter woken after it has left and come back ----

  /** Waking a blocked task keeps the lists intact just when the task is on none of them. */
  lemma WakeSafeIff(k: State, t: nat)
    requires Inv(k) && t < Idle(k) && k.tasks[t].state.Blocked?
    ensures Inv(Wake(k, t)) <==> k.tasks[t].on.None?
  {
    if k.tasks[t].on.None? {
      WakeInv(k, t);
    } else {
      var x := k.tasks[t].(delay := 0, state := Ready);
      assert SameButChoice(SetTask(k, t, x), Wake(k, t));
      assert !TaskOk(Wake(k, t), t);
    }
  }

  /** The machine when the running task, in its queue call `op`, has popped the first waiter of
      list `l` and has left its critical section to wake it, timed or not. */
  function Split(s: Sys, l: nat, op: Op, objs: seq<Object>): Sys
    requires l < |s.k.lists| && s.k.lists[l] != [] && s.k.lists[l][0] < |s.k.tasks| && s.k.current < |s.pcs|
  {
    Goto(s.(k := Pop(s.k, l), objs := objs), Waking(s.k.lists[l][0], op))
  }

  /** In the first `i` steps task `c` does not get any further. */
  ghost predicate Stays(tr: seq<Sys>, i: nat, c: nat, pc: Pc) {
    i < |tr| && forall j :: 0 <= j <= i ==> c < |tr[j].pcs| && tr[j].pcs[c] == pc
  }

  /** The popped waiter is still asleep, on no list. */
  ghost predicate AsleepApart(k: State, w: nat) {
    w < |k.tasks| - 1 && k.tasks[w].state.Blocked? && k.tasks[w].on.None?
  }

  /** Whatever happens before task `c` gets to wake `w`, it finds it asleep. */
  ghost predicate WakesInTime(r: Sys, c: nat, w: nat) {
    forall tr: seq<Sys>, acts, i: nat :: IsRun(tr, acts) && tr[0] == r && c < |r.pcs| && Stays(tr, i, c, r.pcs[c]) ==>
      AsleepApart(tr[i].k, w)
  }

  lemma {:induction false} UntimedStaysAsleep(tr: seq<Sys>, acts: seq<Action>, i: nat, c: nat, w: nat, op: Op)
    requires IsRun(tr, acts) && SysInv(tr[0]) && Stays(tr, i, c, Waking(w, op))
    ensures SysInv(tr[i]) && AsleepApart(tr[i].k, w)
  {
    hide Apply;
    if i > 0 {
      UntimedStaysAsleep(tr, acts, i - 1, c, w, op);
      StepCore(tr[i - 1], acts[i - 1]);
    }
    assert PcOk(tr[i], c) && TaskOk(tr[i].k, w);
  }

  /** `n` SysTicks in a row. */
  lemma {:induction false} TickRun(s: Sys, n: nat) returns (tr: seq<Sys>, acts: seq<Action>)
    requires Shape(s)
    ensures IsRun(tr, acts) && |acts| == n && tr[0] == s && Shape(tr[n])
    ensures tr[n].k == TickMany(s.k, n)
    ensures forall j :: 0 <= j <= n ==> tr[j].pcs == s.pcs
  {
    hide TickN;
    if n == 0 {
      tr, acts := [s], [];
    } else {
      var before, some := TickRun(s, n - 1);
      var last := before[n - 1];
      var r := last.(k := TickN(last.k, 1), now := last.now + 1, lowered := false);
      tr, acts := before + [r], some + [Tick];
      forall i | 0 <= i < n ensures Shape(tr[i]) && Enabled(tr[i], acts[i]) && tr[i + 1] == Apply(tr[i], acts[i]) {
        if i < n - 1 {
          assert tr[i] == before[i] && tr[i + 1] == before[i + 1] && acts[i] == some[i];
        }
      }
      forall t | 0 <= t < |r.pcs| ensures PcFits(r, t) {
        assert PcFits(last, t);
      }
    }
  }

  /** Ticks wake a popped waiter whose delay runs. */
  lemma TimedWakesEarly(s: Sys, c: nat, w: nat)
    requires Shape(s) && Inv(s.k) && c < |s.pcs| && w < Idle(s.k)
    requires s.k.tasks[w].state.Blocked? && s.k.tasks[w].delay > 0
    ensures !WakesInTime(s, c, w)
  {
    hide TickN, Inv;
    var d := s.k.tasks[w].delay;
    var tr, acts := TickRun(s, d);
    TickManyIsTickN(s.k, d - 1);
    TickAges(s.k, d);
    assert Stays(tr, d, c, s.pcs[c]);
    assert !AsleepApart(tr[d].k, w);
  }

  /** Leaving the critical section between pop and wake is safe just for a waiter without a
      running delay, which the caller sees in the control block it popped. */
  lemma SplitWakeSafeIff(s: Sys, l: nat, op: Op, objs: seq<Object>)
    requires SysInv(s) && TaskRuns(s) && !s.pcs[s.k.current].Waking? && l < |s.k.lists| && s.objs[l / 2].Queue?
    requires SameFrame(s, s.(objs := objs)) && s.k.lists[l] != []
    ensures s.k.lists[l][0] < |s.k.tasks|
    ensures var r, c, w := Split(s, l, op, objs), s.k.current, s.k.lists[l][0];
      WakesInTime(r, c, w) <==> s.k.tasks[w].delay == 0
  {
    assert ListOk(s.k, l);
    var c, w := s.k.current, s.k.lists[l][0];
    var r := Split(s, l, op, objs);
    OnListPc(s, l);
    if s.k.tasks[w].delay == 0 {
      PoppedCore(s, l, op, objs);
      forall tr: seq<Sys>, acts, i: nat | IsRun(tr, acts) && tr[0] == r && Stays(tr, i, c, r.pcs[c])
        ensures AsleepApart(tr[i].k, w)
      {
        UntimedStaysAsleep(tr, acts, i, c, w, op);
      }
    } else {
      UnlinkAtInv(s.k, l, 0);
      assert TaskOk(s.k, w);
      FrameShape(s, r);
      TimedWakesEarly(r, c, w);
    }
  }

  lemma WaiterPopped(a: State)
    requires a == Pop(WAITING, 0)
    ensures Inv(WAITING) && Inv(a) && a.lists == [[], []] && a.current == a.next == 0 && |a.tasks| == 3
    ensures a.tasks[1] == Tcb(Blocked, 0, 1, Some(0), false, None, 1)
    ensures !a.tasks[0].state.Blocked? && a.tasks[0].delay == 0 && a.tasks[0].prio == 1 && a.tasks[2].prio == 3
  {
    var k := WAITING;
    assert ListOk(k, 0) && ListOk(k, 1) && TaskOk(k, 0) && TaskOk(k, 1) && TaskOk(k, 2);
    UnlinkAtInv(k, 0, 0);
  }

  /** The popped waiter times out and is chosen. */
  lemma WaiterTimesOut(a: State)
    requires Inv(a) && a.lists == [[], []] && a.current == 0 && |a.tasks| == 3
    requires a.tasks[1] == Tcb(Blocked, 0, 1, Some(0), false, None, 1)
    requires !a.tasks[0].state.Blocked? && a.tasks[0].prio == 1 && a.tasks[2].prio == 3
    ensures Shaped(a)
    ensures var t := TickN(a, 1);
      && Inv(t) && t.lists == [[], []] && t.current == 0 && t.next == 1 && |t.tasks| == 3
      && t.tasks[1].on.None? && !t.tasks[0].state.Blocked? && t.tasks[0].prio == 1 && t.tasks[2].prio == 3
  {
    hide TickN;
    TickInv(a, 1);
    TickAges(a, 1);
    var t := TickN(a, 1);
    KeepAll([], Expiring(a, 1, 2));
    assert t.tasks[1].prio == 0 && (IsReady(t.tasks, 1) || t.tasks[1].state.Running?);
    assert t.tasks[t.next].state.Running?;
  }

  /** It blocks elsewhere, and the task that popped it runs again. */
  lemma WaiterBlocksElsewhere(b: State)
    requires Inv(b) && b.current == b.next == 1 && |b.tasks| == 3 && b.lists == [[], []]
    requires !b.tasks[0].state.Blocked? && b.tasks[0].prio == 1 && b.tasks[2].prio == 3
    ensures Shaped(b)
    ensures var e := Block(b, 1, Untimed);
      Inv(e) && e.lists == [[], [1]] && e.next == 0 && |e.tasks| == 3 && e.tasks[1].state.Blocked? && e.tasks[1].on == Some(1)
  {
    hide Block;
    LinkedShaped(b);
    BlockInv(b, 1, Untimed);
    BlockEffect(b, 1, Untimed);
    assert Insert([], b.tasks, 1) == [1];
    var e := Block(b, 1, Untimed);
    assert IsReady(e.tasks, 0) || e.tasks[0].state.Running?;
    assert e.tasks[e.next].state.Running?;
  }

  /** A receiver waits in a run from start-up. The sender pops it, its timeout fires and it
      blocks elsewhere; then the sender's wake-up marks it READY on its new list. */
  lemma LateWakeCorrupts() returns (a: State, b: State, c: State, d: State)
    ensures Reachable(Line(WAITING, Asleep(Recv(0, Until(1)), 0)))
    ensures Inv(WAITING) && a == Pop(WAITING, 0)
    ensures Shaped(a) && b == Deliver(TickN(a, 1))
    ensures b.current == 1 && Shaped(b) && c == Deliver(Block(b, 1, Untimed))
    ensures c.current == 0 && Bounds(c) && d == Wake(c, 1)
    ensures Inv(c) && c.lists[1] == [1] && d.lists[1] == [1] && !d.tasks[1].state.Blocked? && !Inv(d)
  {
    hide TickN, Block, Wake, Inv, Reachable;
    ReceiverWaits();
    a := Pop(WAITING, 0);
    WaiterPopped(a);
    WaiterTimesOut(a);
    b := Deliver(TickN(a, 1));
    DeliverInv(TickN(a, 1));
    WaiterBlocksElsewhere(b);
    c := Deliver(Block(b, 1, Untimed));
    DeliverInv(Block(b, 1, Untimed));
    WokenTooLate(c);
    d := Wake(c, 1);
  }

  lemma WokenTooLate(c: State)
    requires Inv(c) && |c.tasks| == 3 && c.tasks[1].state.Blocked? && c.tasks[1].on == Some(1)
    ensures Bounds(c) && !Inv(Wake(c, 1)) && Wake(c, 1).lists == c.lists && !Wake(c, 1).tasks[1].state.Blocked?
  {
    WakeSafeIff(c, 1);
    WakeEffect(c, 1);
  }

  // ---- Elevating a task that is itself queued ----

  /** Raising the priority of entry `i` of a list keeps it sorted just when the entry in front
      is still better. */
  lemma ElevationSortedIff(k: State, l: nat, i: nat, p: nat)
    requires Linked(k) && Sorted(k, l) && l < |k.lists| && i < |k.lists[l]| && k.lists[l][i] < |k.tasks|
    requires p <= k.tasks[k.lists[l][i]].prio
    ensures var q, x := k.lists[l], k.tasks[k.lists[l][i]].(prio := p);
      Sorted(SetTask(k, q[i], x), l) <==> i == 0 || (q[i - 1] < |k.tasks| && Before(k.tasks[q[i - 1]], x))
  {
    var q := k.lists[l];
    var t := q[i];
    var x := k.tasks[t].(prio := p);
    var r := SetTask(k, t, x);
    assert ListOk(k, l);
    if i > 0 {
      assert q[i - 1] != q[i];
    }
    if i == 0 || Before(k.tasks[q[i - 1]], x) {
      StillOrdered(k.tasks, q, i, x);
    } else {
      assert !Before(r.tasks[q[i - 1]], r.tasks[q[i]]);
    }
  }

  lemma StillOrdered(tasks: seq<Tcb>, q: seq<nat>, i: nat, x: Tcb)
    requires InRange(q, |tasks|) && Distinct(q) && Ordered(tasks, q) && i < |q|
    requires x.prio <= tasks[q[i]].prio && x.stamp == tasks[q[i]].stamp
    requires i > 0 ==> Before(tasks[q[i - 1]], x)
    ensures Ordered(tasks[q[i] := x], q)
  {
    forall a, b | 0 <= a < b < |q| ensures Before(tasks[q[i] := x][q[a]], tasks[q[i] := x][q[b]]) {
      assert q[a] != q[b] && Before(tasks[q[a]], tasks[q[b]]);
      if b == i && a < i - 1 {
        assert Before(tasks[q[a]], tasks[q[i - 1]]);
      }
    }
  }

  // ---- Unlocking without waking anybody ----

  /** An elevated owner whose waiters have all timed out goes on running after unlock; that is
      still the best choice just when no READY task is better than its own priority. */
  lemma UnlockStillBestIff(k: State, m: Object)
    requires Inv(k) && Decided(k) && k.current == k.next < Idle(k)
    requires m.Mutex? && m.owner == Some(k.next) && m.elevated && m.saved < NO_PRIO
    ensures Bounds(Restore(k, m))
    ensures Decided(Restore(k, m)) <==> forall t :: IsReady(k.tasks, t) ==> m.saved <= k.tasks[t].prio
  {
    var r := Restore(k, m);
    forall t ensures IsReady(r.tasks, t) <==> IsReady(k.tasks, t) {
    }
    forall t | IsReady(k.tasks, t) ensures t != k.next && r.tasks[t] == k.tasks[t] {
      assert k.tasks[k.next].state.Running?;
    }
  }

  // ---- A delay and a timer that end together ----

  /** One auto-reload timer of 10 milliseconds, started together with the delay. */
  const TEN := Timer(true, true, true, 10, 10, Some(0))

  /** In a run from start-up the only task delays for as long as a timer runs. The idle task
      sleeps, the task wakes, and the callback comes at 11 instead of 10. */
  lemma CallbackTooLate() returns (b: Board)
    ensures Reachable(Alone(RESTING, Delaying(10))) && b == Board(RESTING, Wheel(0, [TEN], []))
    ensures Idling(b.k) && MaySleep(b, 10)
    ensures CallsOf(TickTimes(b, 10).w.calls, 0) == [10]
    ensures Shaped(Iterated(b, 10).k) && CallsOf(Tickless.Tick(Iterated(b, 10)).w.calls, 0) == [11]
    ensures Iterated(b, 10) != TickTimes(b, 10)
  {
    hide TickN, Reachable, Shape, Inv, CallsOf, TickTimes, MaySleep, SomeExpires, Due, IdleBudget;
    b := Board(RESTING, Wheel(0, [TEN], []));
    IdleRuns();
    ReachableInv(Alone(RESTING, Delaying(10)));
    NoCalls(0, 0);
    BothEnd(b);
    SwitchesOnExpiry(b.k, 10);
    CalledAtNextService(b, 10, 0, Iterated(b, 10).k);
    IteratedIsTickingIff(b, 10);
    TicklessIsTicking(b, 10);
  }

  lemma BothEnd(b: Board)
    requires b == Board(RESTING, Wheel(0, [TEN], []))
    ensures MaySleep(b, 10) && SomeExpires(b.k, 10) && Due(b.w.timers[0], Shown(b.w.time + 10))
  {
    assert Delayed(b.k.tasks[0]) && IsNextWakeup(b.k, 10);
    assert Timers.Runs(b.w.timers[0]) && Remaining(b.w.timers[0], Shown(0)) == 10;
    assert IsNextReady(b.w.timers, Shown(0), 10);
    assert Expires(b.k.tasks[0], 10);
  }
}
