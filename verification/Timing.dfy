/** Time is absolute: a delay ends exactly when it should, and a timed call keeps its
    original deadline however often it is woken and loses the race. */
module Timing {
  import opened Selection
  import opened WaitQueue
  import opened Kernel
  import opened Effects
  import opened Primitives
  import opened System
  import opened KernelLemmas
  import opened Ticks
  import opened Integrity
  import opened IntegritySteps
  import opened Frames
  import opened Inheritance
  import opened Runs
  import opened EventBits
  import opened Timers

  predicate TakesTime(a: Action) {
    a.Tick? || a.Sleep?
  }

  lemma AdvanceNow(s: Sys)
    requires Shape(s) && TaskRuns(s)
    ensures Advance(s).now == s.now
  {
    hide PopWake, Wake, Block, Shaped, OwnerFits;
    assert PcFits(s, s.k.current);
  }

  /** Only SysTick and the tickless sleep move the clock, by no more than any running delay. */
  lemma NowStep(s: Sys, a: Action)
    requires Shape(s) && Enabled(s, a)
    ensures !TakesTime(a) ==> Apply(s, a).now == s.now
    ensures TakesTime(a) ==> Apply(s, a).now > s.now && WithinBudget(s.k, Apply(s, a).now - s.now)
  {
    hide PopWake, Sweep, TickN, Delay, Yield, UnlockKernel, Advance, Shaped, OwnerFits, PcFits;
    if a.Continue? {
      AdvanceNow(s);
    }
  }

  /** From `sched_delay_ms` on, the task is blocked before its time and never after. */
  lemma DelayIsExact(tr: seq<Sys>, acts: seq<Action>, i: nat, t: nat, until: nat)
    requires IsRun(tr, acts) && Init(tr[0]) && i < |tr|
    requires t < |tr[i].pcs| && tr[i].pcs[t] == Delaying(until)
    ensures t < |tr[i].k.tasks|
    ensures tr[i].k.tasks[t].state.Blocked? <==> tr[i].now < until
  {
    RunInv(tr, acts, i);
    assert PcOk(tr[i], t);
  }

  /** The step that ends a delay is the one that reaches `until`. */
  lemma DelayEndsOnTime(s: Sys, a: Action, t: nat, until: nat)
    requires SysInv(s) && Enabled(s, a) && t < |s.pcs|
    requires s.pcs[t] == Delaying(until) && s.k.tasks[t].state.Blocked?
    requires Apply(s, a).pcs[t] == Delaying(until) && !Apply(s, a).k.tasks[t].state.Blocked?
    ensures Apply(s, a).now == until
  {
    hide Apply;
    StepCore(s, a);
    NowStep(s, a);
    assert PcOk(s, t) && PcOk(Apply(s, a), t) && TaskOk(s.k, t);
  }

  /** `sched_delay_ms(ms)` called at time T runs until T + ms. */
  lemma DelayStarts(s: Sys, ms: nat)
    requires SysInv(s) && Enabled(s, StartDelay(ms))
    ensures var r := Apply(s, StartDelay(ms));
      r.pcs[s.k.current] == Delaying(s.now + ms) && r.k.tasks[s.k.current].state.Blocked?
  {
    hide Delay;
    DelayEffect(s.k, ms);
  }

  /** However it came to sleep, a timed caller sleeps until the clock shows its deadline, and its
      `wait_list_head` names the list it is on. That is its deadline just if the clock shows the
      lap of the deadline: a caller that retries after the clock has wrapped waits once more. */
  lemma TimedWaitKeepsDeadline(tr: seq<Sys>, acts: seq<Action>, i: nat, t: nat)
    requires IsRun(tr, acts) && Init(tr[0]) && i < |tr|
    requires t < |tr[i].pcs| && tr[i].pcs[t].Asleep? && tr[i].pcs[t].op.p.Until?
    requires t < |tr[i].k.tasks| && tr[i].k.tasks[t].on.Some?
    ensures var x, now, due := tr[i].k.tasks[t], tr[i].now, tr[i].pcs[t].op.p.due;
      && x.delay > 0 && Shown(now + x.delay) == Shown(due)
      && (now + x.delay == due <==> now / TWO32 == due / TWO32)
      && x.head == x.on == Some(ListOf(tr[i].pcs[t].op))
  {
    RunInv(tr, acts, i);
    assert PcOk(tr[i], t) && TaskOk(tr[i].k, t);
  }

  // ---- Only time raises a time-out flag ----

  ghost predicate NoNewFlag(k: State, r: State) {
    |r.tasks| == |k.tasks| && forall t :: 0 <= t < |k.tasks| && r.tasks[t].timedOut ==> k.tasks[t].timedOut
  }

  lemma PopWakeFlags(k: State, l: nat)
    requires Linked(k) && l < |k.lists|
    ensures InRange(k.lists[l], |k.tasks|) && NoNewFlag(k, PopWake(k, l))
  {
    hide PopWake;
    if k.lists[l] == [] {
      PopWakeNone(k, l);
    } else {
      PopWakeEffect(k, l);
    }
  }

  lemma BlockFlags(k: State, l: nat, arm: Arm)
    requires Linked(k) && l < |k.lists| && InRange(k.lists[l], |k.tasks|)
    ensures NoNewFlag(k, Block(k, l, arm))
  {
    hide Block;
    BlockEffect(k, l, arm);
  }

  lemma PopThenWakeFlags(s: Sys, l: nat, op: Op)
    requires SysInv(s) && TaskRuns(s) && l < |s.k.lists|
    ensures NoNewFlag(s.k, PopThenWake(s, l, op).k)
  {
    hide PopWake, PcOk, WakersDiffer, OneRunning;
    PopWakeFlags(s.k, l);
  }

  lemma TryFlags(s: Sys, op: Op)
    requires SysInv(s) && TaskRuns(s) && Fits(s.objs, op)
    ensures NoNewFlag(s.k, TryOp(s, op).k)
  {
    hide PopThenWake, Block, ArmFor, Met, Without, PcOk, WakersDiffer, OneRunning;
    if op.Send? {
      PopThenWakeFlags(s, 2 * op.q, op);
    } else if op.Recv? {
      PopThenWakeFlags(s, 2 * op.q + 1, op);
    }
    BlockFlags(s.k, ListOf(op), ArmFor(s, op));
  }

  lemma AdvanceFlags(s: Sys)
    requires SysInv(s) && TaskRuns(s)
    ensures NoNewFlag(s.k, Advance(s).k)
  {
    hide TryOp, LockSlow, Wake, PcOk, WakersDiffer, OneRunning;
    var c := s.k.current;
    assert PcFits(s, c);
    match s.pcs[c]
    case Called(op) => TryFlags(s, op);
    case Slow(op) => SlowFlags(s, op);
    case Asleep(op, slot) => TryFlags(s, op);
    case Waking(w, op) => WakeEffect(s.k, w);
    case _ =>
  }

  lemma SlowFlags(s: Sys, op: Op)
    requires SysInv(s) && TaskRuns(s) && Fits(s.objs, op) && op.Lock?
    ensures NoNewFlag(s.k, LockSlow(s, op).k)
  {
    hide Block, PcOk, WakersDiffer;
    if !Passed(s, op.p) && s.objs[op.m].owner.Some? {
      InheritInv(s, s.objs[op.m]);
      var k := Inherit(s.k, s.objs[op.m]).0;
      LinkedShaped(k);
      BlockFlags(k, ListOf(op), ArmFor(s, op));
    }
  }

  /** No other action than the passing of time makes a call time out. */
  lemma OnlyTimeFlags(s: Sys, a: Action)
    requires SysInv(s) && Enabled(s, a) && !TakesTime(a)
    ensures NoNewFlag(s.k, Apply(s, a).k)
  {
    hide Advance, PopWake, Sweep, UnlockKernel, Delay, Yield, PcOk, WakersDiffer, OneRunning, TaskOk, ListOk;
    match a
    case Continue => AdvanceFlags(s);
    case Unlock(m) => UnlockKernelRanks(s, m);
    case StartDelay(ms) => DelayEffect(s.k, ms);
    case YieldNow => YieldFlags(s);
    case IsrGive(x) => PopWakeFlags(s.k, 2 * x);
    case IsrSend(q, _) => PopWakeFlags(s.k, 2 * q);
    case IsrRecv(q) => PopWakeFlags(s.k, 2 * q + 1);
    case SetBits(e, bits) =>
      StartCore(s, e, bits);
      SweepLeaves(s, SweepStart(s, e, bits), e, 0);
    case _ =>
  }

  lemma YieldFlags(s: Sys)
    requires SysInv(s) && TaskRuns(s)
    ensures NoNewFlag(s.k, Yield(s.k))
  {
    hide Yield;
    RunnerAwake(s);
    YieldEffect(s.k);
  }

  /** A time-out is delivered when the clock shows the deadline: at the deadline itself just if the
      clock has not wrapped on the way. */
  lemma TimeoutOnTime(s: Sys, a: Action, t: nat, op: Op, slot: nat)
    requires SysInv(s) && Enabled(s, a) && t < |s.pcs| && op.p.Until?
    requires s.pcs[t] == Asleep(op, slot) && s.k.tasks[t].on.Some?
    requires Apply(s, a).pcs[t] == Asleep(op, slot)
    requires Apply(s, a).k.tasks[t].on.None? && Apply(s, a).k.tasks[t].timedOut
    ensures var r := Apply(s, a);
      && Shown(r.now) == Shown(op.p.due) && !r.k.tasks[t].state.Blocked?
      && (r.now == op.p.due <==> s.now / TWO32 == op.p.due / TWO32)
  {
    hide Apply;
    StepCore(s, a);
    NowStep(s, a);
    assert PcOk(s, t) && PcOk(Apply(s, a), t) && TaskOk(s.k, t);
    if !TakesTime(a) {
      OnlyTimeFlags(s, a);
    } else {
      TimeSteps(s, a, t);
    }
  }

  /** A waiter that is taken off its list by a step of time is so at the end of its delay. */
  lemma TimeSteps(s: Sys, a: Action, t: nat)
    requires SysInv(s) && Enabled(s, a) && TakesTime(a) && t < |s.pcs| && s.k.tasks[t].on.Some?
    requires Apply(s, a).k.tasks[t].on.None?
    ensures Apply(s, a).now >= s.now + s.k.tasks[t].delay
  {
    hide TickN, PcOk, WakersDiffer;
    TickAges(s.k, if a.Tick? then 1 else a.ms);
  }

  /** The step of time that reaches the end of a timed wait takes the waiter off its list, can run
      it, and tells it that it has timed out. */
  lemma DueTimesOut(s: Sys, a: Action, t: nat)
    requires SysInv(s) && Enabled(s, a) && TakesTime(a) && t < |s.pcs| && s.k.tasks[t].on.Some?
    requires 0 < s.k.tasks[t].delay <= Apply(s, a).now - s.now
    ensures var r := Apply(s, a).k; var x := r.tasks[t];
      && x.timedOut && !x.state.Blocked? && x.delay == 0 && x.on.None? && x.head.None?
      && forall l :: 0 <= l < |r.lists| ==> t !in r.lists[l]
  {
    hide TickN, PcOk, WakersDiffer;
    var ms := if a.Tick? then 1 else a.ms;
    TickAges(s.k, ms);
    TickInv(s.k, ms);
    assert TaskOk(s.k, t);
    forall l | 0 <= l < |s.k.lists| ensures t !in TickN(s.k, ms).lists[l] {
      OnList(TickN(s.k, ms), t, l);
    }
  }

  /** The call a task is in. */
  function CallOf(pc: Pc): Option<Op> {
    match pc
    case Called(op) => Some(op)
    case Slow(op) => Some(op)
    case Asleep(op, _) => Some(op)
    case Waking(_, op) => Some(op)
    case _ => None
  }

  /** Trying moves nobody but the caller, who leaves or stays in the same call. */
  ghost predicate SamePlace(s: Sys, r: Sys, op: Op)
    requires s.k.current < |s.pcs|
  {
    var c := s.k.current;
    && |r.pcs| == |s.pcs| && r.pcs == s.pcs[c := r.pcs[c]]
    && (CallOf(r.pcs[c]) == Some(op) || r.pcs[c].User?)
  }

  lemma PopPlace(s: Sys, l: nat, op: Op)
    requires Shape(s) && TaskRuns(s) && l < |s.k.lists|
    ensures SamePlace(s, PopThenWake(s, l, op), op)
  {
    hide PopWake, RemoveAt, Shaped, PcFits, OwnerFits;
  }

  lemma BlockPlace(s: Sys, op: Op, slot: nat)
    requires Shape(s) && TaskRuns(s) && ListOf(op) < |s.k.lists|
    ensures SamePlace(s, BlockOn(s, op, slot), op)
  {
    hide Block, ArmFor, Shaped, PcFits, OwnerFits;
  }

  lemma SameCallTry(s: Sys, op: Op)
    requires Shape(s) && TaskRuns(s) && Fits(s.objs, op)
    ensures SamePlace(s, TryOp(s, op), op)
  {
    hide PopThenWake, BlockOn, Block, ArmFor, FreeSlot, Met, Without, Shaped, PcFits, OwnerFits;
    match op {
      case Send(q, _, _) => PopPlace(s, 2 * q, op);
      case Recv(q, _) => PopPlace(s, 2 * q + 1, op);
      case _ =>
    }
    if !op.Lock? && !op.Await? {
      BlockPlace(s, op, 0);
    }
  }

  /** While a task stays inside a call, it is the same call with the same deadline. */
  lemma SameCall(s: Sys, a: Action, t: nat)
    requires Shape(s) && Enabled(s, a) && t < |s.pcs|
    ensures var p, q := s.pcs[t], Apply(s, a).pcs[t];
      CallOf(p).Some? ==> q.User? || CallOf(q) == CallOf(p)
  {
    hide PopWake, Wake, Block, Sweep, TickN, Delay, Yield, UnlockKernel, TryOp, Inherit;
    if a.Continue? {
      assert PcFits(s, s.k.current);
      if s.pcs[s.k.current].Called? || s.pcs[s.k.current].Asleep? {
        SameCallTry(s, s.pcs[s.k.current].op);
      }
    }
  }

  // ---- The 32-bit clock ----

  /** A timed call waits at all exactly when its deadline does not wrap. */
  lemma TimedCallWaits(now: nat, timeout: nat)
    requires 0 < timeout < TWO32
    ensures !SeemsPast(now, now + timeout) <==> Shown(now) + timeout < TWO32
  {
    var x, q := Shown(now), now / TWO32;
    assert now == q * TWO32 + x;
    if x + timeout < TWO32 {
      assert now + timeout == q * TWO32 + (x + timeout);
    } else {
      assert now + timeout == (q + 1) * TWO32 + (x + timeout - TWO32);
    }
  }

  predicate CheckRight(now: nat, due: nat) {
    SeemsPast(now, due) <==> now >= due
  }

  ghost predicate ChecksRight(start: nat, last: nat, due: nat) {
    forall now :: start <= now <= last ==> CheckRight(now, due)
  }

  /** From the start of such a call on, the check is right at every retry just as long as the
      clock has not wrapped. */
  lemma ChecksRightIff(start: nat, timeout: nat, last: nat)
    requires Shown(start) + timeout < TWO32 && timeout > 0 && start + timeout <= last
    ensures ChecksRight(start, last, start + timeout) <==> last / TWO32 == start / TWO32
  {
    var q, due := start / TWO32, start + timeout;
    assert start == q * TWO32 + Shown(start);
    assert due == q * TWO32 + (Shown(start) + timeout);
    if last / TWO32 == q {
      forall now | start <= now <= last ensures CheckRight(now, due) {
        assert now / TWO32 == q;
      }
    } else {
      var now := (q + 1) * TWO32;
      assert start <= now <= last && Shown(now) == 0;
      assert !CheckRight(now, due);
    }
  }

  /** What a retry arms is the time left just when the clock shows the lap of the deadline. */
  lemma RemainingIsExact(now: nat, due: nat)
    requires !SeemsPast(now, due)
    ensures now + (Shown(due) - Shown(now)) == due <==> now / TWO32 == due / TWO32
  {
  }
}
