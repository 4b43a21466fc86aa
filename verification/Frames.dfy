/** What actions leave alone: priorities, enqueue stamps, mutexes, and the waits of all
    tasks but the one that acts. */
module Frames {
  import opened Selection
  import opened WaitQueue
  import opened Kernel
  import opened Ticks
  import opened Effects
  import opened EventBits
  import opened Primitives
  import opened System
  import opened Integrity
  import opened IntegritySteps
  import opened Runs
  import opened Channels

  ghost predicate SameRank(k: State, r: State) {
    && |r.tasks| == |k.tasks| && r.clock == k.clock
    && forall t :: 0 <= t < |k.tasks| ==> r.tasks[t].prio == k.tasks[t].prio && r.tasks[t].stamp == k.tasks[t].stamp
  }

  lemma PopWakeRank(k: State, l: nat)
    requires Linked(k) && l < |k.lists|
    ensures InRange(k.lists[l], |k.tasks|) && SameRank(k, PopWake(k, l))
  {
    hide PopWake;
    if k.lists[l] == [] {
      PopWakeNone(k, l);
    } else {
      PopWakeEffect(k, l);
    }
  }

  lemma {:induction false} SweepRank(s: Sys, w: Swept, e: nat, i: nat)
    requires e < |s.objs| && s.objs[e].Group? && SysInv(Embed(s, w, e))
    ensures Shaped(w.k) && SameRank(w.k, Sweep(w, 2 * e, i).k)
    decreases |w.k.lists[2 * e]| - i
  {
    hide SweepWake, Satisfied, PcOk, Inv, WakersDiffer;
    if i < |w.k.lists[2 * e]| {
      if Satisfied(w, 2 * e, i) {
        SweepWakeEffect(w, 2 * e, i);
        SweepWakeCore(s, w, e, i);
        SweepRank(s, SweepWake(w, 2 * e, i), e, i);
      } else {
        SweepRank(s, w, e, i + 1);
      }
    }
  }

  predicate LockPc(pc: Pc) {
    match pc
    case Called(op) => op.Lock?
    case Slow(_) => true
    case Asleep(op, _) => op.Lock?
    case _ => false
  }

  /** The actions that take, queue behind, or release a mutex. */
  predicate MutexAction(s: Sys, a: Action)
    requires s.k.current < |s.pcs|
  {
    a.Unlock? || (a.Continue? && LockPc(s.pcs[s.k.current]))
  }

  /** Tasks other than `c` leave list `l` at most, or time out. */
  ghost predicate Leaves(s: Sys, r: Sys, c: nat, l: int) {
    && |r.k.tasks| == |s.k.tasks|
    && forall t :: 0 <= t < |s.k.tasks| && t != c ==>
         || r.k.tasks[t].on == s.k.tasks[t].on
         || (s.k.tasks[t].on.Some? && s.k.tasks[t].on.value == l)
         || (s.k.tasks[t].delay > 0 && r.k.tasks[t].timedOut)
  }

  /** No mutex, priority or list of a mutex gains or changes; tasks other than `c` keep
      their place and their stamp, stay woken once they are, and leave list `l` at most. */
  ghost predicate Frame(s: Sys, r: Sys, c: nat, l: int) {
    && Leaves(s, r, c, l)
    && Calm(s, r, c) && c < |s.pcs| && r.base == s.base
    && |r.k.tasks| == |s.k.tasks| && |r.base| == |s.base| && r.k.clock >= s.k.clock
    && (forall t :: 0 <= t < |s.pcs| ==>
          && r.k.tasks[t].prio == s.k.tasks[t].prio
          && (r.k.tasks[t].stamp == s.k.tasks[t].stamp || (t == c && r.k.tasks[t].stamp == s.k.clock < r.k.clock)))
    && (forall o :: 0 <= o < |s.objs| && s.objs[o].Mutex? ==> r.objs[o] == s.objs[o])
    && (forall o :: 0 <= o < |s.objs| && r.objs[o].Mutex? ==> r.objs[o] == s.objs[o])
    && (r.k.tasks[c].on.None? || r.k.tasks[c].on == s.k.tasks[c].on
        || (r.pcs[c].Asleep? && !r.pcs[c].op.Lock? && r.k.tasks[c].on == Some(ListOf(r.pcs[c].op))
            && r.k.tasks[c].on.value / 2 < |r.objs| && !r.objs[r.k.tasks[c].on.value / 2].Mutex?))
  }

  /** The running task moves on without blocking. */
  lemma MoveFrame(s: Sys, r: Sys)
    requires SysInv(s) && TaskRuns(s) && Shape(r) && |r.pcs| == |s.pcs| && |r.objs| == |s.objs| && r.base == s.base
    requires r.pcs == s.pcs[s.k.current := r.pcs[s.k.current]]
    requires SameRank(s.k, r.k)
    requires forall t :: 0 <= t < |s.pcs| ==>
      && r.k.tasks[t].on == s.k.tasks[t].on
      && (t != s.k.current ==> r.k.tasks[t].timedOut == s.k.tasks[t].timedOut)
    requires forall o :: 0 <= o < |s.objs| ==> (s.objs[o].Mutex? || r.objs[o].Mutex? ==> r.objs[o] == s.objs[o])
    ensures Frame(s, r, s.k.current, -1)
  {
    RunnerAwake(s);
  }

  lemma BlockFrame(s: Sys, r: Sys, op: Op)
    requires SysInv(s) && TaskRuns(s) && Shape(r) && |r.objs| == |s.objs| && Fits(s.objs, op) && !op.Lock?
    requires r.k == Block(s.k, ListOf(op), ArmFor(s, op)) && r.base == s.base && r.objs == s.objs
    requires |r.pcs| == |s.pcs| && r.pcs == s.pcs[s.k.current := r.pcs[s.k.current]]
    requires r.pcs[s.k.current].Asleep? && r.pcs[s.k.current].op == op
    ensures Frame(s, r, s.k.current, -1)
  {
    hide Block;
    RunnerAwake(s);
    BlockEffect(s.k, ListOf(op), ArmFor(s, op));
    BlockCalm(s, r, op);
  }

  lemma PopFrame(s: Sys, l: nat, op: Op, r: Sys)
    requires SysInv(s) && TaskRuns(s) && l < |s.k.lists| && Shape(r) && |r.objs| == |s.objs|
    requires r == PopThenWake(s, l, op).(objs := r.objs)
    requires forall o :: 0 <= o < |s.objs| ==> (s.objs[o].Mutex? || r.objs[o].Mutex? ==> r.objs[o] == s.objs[o])
    ensures Frame(s, r, s.k.current, l)
  {
    hide Calm, PcOk;
    PopThenWakeCalm(s, l, op, r);
    PopThenWakeRank(s, l, op);
    PopThenWakeLeaves(s, l, op);
    hide PopThenWake;
  }

  lemma PopThenWakeLeaves(s: Sys, l: nat, op: Op)
    requires SysInv(s) && TaskRuns(s) && l < |s.k.lists|
    ensures Leaves(s, PopThenWake(s, l, op), s.k.current, l)
  {
    if s.k.lists[l] != [] {
      hide PopThenWake, PcOk, OneRunning, WakersDiffer;
      PopThenWakeHeadOff(s, l, op);
    }
  }

  lemma PopThenWakeRank(s: Sys, l: nat, op: Op)
    requires SysInv(s) && l < |s.k.lists|
    ensures SameRank(s.k, PopThenWake(s, l, op).k)
  {
    hide PopWake, PcOk, WakersDiffer;
    PopWakeRank(s.k, l);
  }

  /** The list whose first waiter a queue operation pops: that of the other side. */
  function OtherSide(op: Op): int {
    match op
    case Send(q, _, _) => 2 * q
    case Recv(q, _) => 2 * q + 1
    case _ => -1
  }

  lemma QuietLeaves(s: Sys, r: Sys, c: nat, l: int)
    requires Frame(s, r, c, -1)
    ensures Frame(s, r, c, l)
  {
  }

  lemma QueueFrame(s: Sys, op: Op)
    requires SysInv(s) && TaskRuns(s) && Fits(s.objs, op) && (op.Send? || op.Recv?) && Shape(TryOp(s, op))
    ensures Frame(s, TryOp(s, op), s.k.current, OtherSide(op))
  {
    hide PopThenWake, Block, PcOk, Inv, WakersDiffer, Frame;
    var q := s.objs[op.q];
    var r := TryOp(s, op);
    if op.Send? && |q.items| < q.capacity {
      PopFrame(s, 2 * op.q, op, r);
    } else if op.Recv? && |q.items| > 0 {
      PopFrame(s, 2 * op.q + 1, op, r);
    } else if op.p.Never? || Passed(s, op.p) {
      MoveFrame(s, r);
      QuietLeaves(s, r, s.k.current, OtherSide(op));
    } else {
      BlockFrame(s, r, op);
      QuietLeaves(s, r, s.k.current, OtherSide(op));
    }
  }

  lemma TakeAwaitFrame(s: Sys, op: Op)
    requires SysInv(s) && TaskRuns(s) && Fits(s.objs, op) && (op.Take? || op.Await?) && Shape(TryOp(s, op))
    ensures Frame(s, TryOp(s, op), s.k.current, OtherSide(op))
  {
    hide Block, PcOk, Inv, WakersDiffer, Frame, Met, Without;
    var r := TryOp(s, op);
    if r.pcs[s.k.current].Asleep? {
      BlockFrame(s, r, op);
    } else {
      MoveFrame(s, r);
    }
  }

  lemma TryFrame(s: Sys, op: Op)
    requires SysInv(s) && TaskRuns(s) && Fits(s.objs, op) && !op.Lock? && Shape(TryOp(s, op))
    ensures Frame(s, TryOp(s, op), s.k.current, OtherSide(op))
  {
    if op.Take? || op.Await? {
      TakeAwaitFrame(s, op);
    } else {
      QueueFrame(s, op);
    }
  }

  /** The list that an action other than one on a mutex may pop from. */
  function PoppedList(s: Sys, a: Action): int
    requires s.k.current < |s.pcs|
  {
    match a
    case IsrGive(x) => 2 * x
    case IsrSend(q, _) => 2 * q
    case IsrRecv(q) => 2 * q + 1
    case SetBits(e, _) => 2 * e
    case Continue => PcPops(s.pcs[s.k.current])
    case _ => -1
  }

  function PcPops(pc: Pc): int {
    match pc
    case Called(op) => OtherSide(op)
    case Asleep(op, _) => OtherSide(op)
    case _ => -1
  }

  lemma AdvanceFrame(s: Sys)
    requires SysInv(s) && TaskRuns(s) && !s.pcs[s.k.current].User? && !LockPc(s.pcs[s.k.current])
    requires SysInv(Advance(s))
    ensures Frame(s, Advance(s), s.k.current, PcPops(s.pcs[s.k.current]))
  {
    hide TryOp, Wake, PcOk, Inv, WakersDiffer, Frame;
    var c := s.k.current;
    var r := Advance(s);
    assert PcFits(s, c);
    match s.pcs[c]
    case Delaying(_) => MoveFrame(s, r);
    case Called(op) => TryFrame(s, op);
    case Asleep(op, slot) =>
      if (op.p.Until? && s.k.tasks[c].timedOut) || op.Await? {
        MoveFrame(s, r);
        QuietLeaves(s, r, c, OtherSide(op));
      } else {
        TryFrame(s, op);
      }
    case Waking(w, op) =>
      WakeEffect(s.k, w);
      MoveFrame(s, r);
  }

  /** An action that is not the running task's own: nobody's place changes. */
  lemma OutsideFrame(s: Sys, r: Sys, l: int)
    requires SysInv(s) && SysInv(r) && r.pcs == s.pcs && |r.objs| == |s.objs| && r.base == s.base
    requires SameRank(s.k, r.k) && Leaves(s, r, |s.pcs| - 1, l)
    requires forall t :: 0 <= t < |s.pcs| ==>
      && (r.k.tasks[t].on == s.k.tasks[t].on || r.k.tasks[t].on.None?)
      && (s.pcs[t].Asleep? && s.k.tasks[t].on.None? ==> r.k.tasks[t].timedOut == s.k.tasks[t].timedOut)
    requires forall o :: 0 <= o < |s.objs| ==> (s.objs[o].Mutex? || r.objs[o].Mutex? ==> r.objs[o] == s.objs[o])
    ensures Frame(s, r, |s.pcs| - 1, l)
  {
  }

  lemma PopWakeFrame(s: Sys, l: nat, r: Sys)
    requires SysInv(s) && SysInv(r) && l < |s.k.lists| && r.pcs == s.pcs && |r.objs| == |s.objs| && r.base == s.base
    requires r.k == PopWake(s.k, l)
    requires forall o :: 0 <= o < |s.objs| ==> (s.objs[o].Mutex? || r.objs[o].Mutex? ==> r.objs[o] == s.objs[o])
    ensures Frame(s, r, |s.pcs| - 1, l)
  {
    hide PopWake, PcOk, WakersDiffer, OneRunning, TaskOk;
    PopWakeRank(s.k, l);
    PopWakeWaits(s.k, l);
    if s.k.lists[l] != [] {
      assert ListOk(s.k, l);
    }
    OutsideFrame(s, r, l);
  }

  lemma TimeFrame(s: Sys, ms: nat, r: Sys)
    requires SysInv(s) && SysInv(r) && r == s.(k := TickN(s.k, ms), now := r.now, lowered := r.lowered)
    ensures Frame(s, r, |s.pcs| - 1, -1)
  {
    hide TickN;
    TickAges(s.k, ms);
    forall t | 0 <= t < |s.pcs|
      ensures s.pcs[t].Asleep? && s.k.tasks[t].on.None? ==> r.k.tasks[t].timedOut == s.k.tasks[t].timedOut
      ensures r.k.tasks[t].on == s.k.tasks[t].on || (s.k.tasks[t].delay > 0 && r.k.tasks[t].timedOut)
    {
      assert PcOk(s, t) && TaskOk(s.k, t);
    }
    OutsideFrame(s, r, -1);
  }

  /** The sweep only takes tasks off its list. */
  lemma {:induction false} SweepLeaves(s: Sys, w: Swept, e: nat, i: nat)
    requires e < |s.objs| && s.objs[e].Group? && SysInv(Embed(s, w, e))
    ensures Shaped(w.k)
    ensures var r := Sweep(w, 2 * e, i).k; |r.tasks| == |w.k.tasks| && forall t :: 0 <= t < |w.k.tasks| ==>
      && (r.tasks[t].on == w.k.tasks[t].on || (r.tasks[t].on.None? && w.k.tasks[t].on == Some(2 * e)))
      && r.tasks[t].timedOut == w.k.tasks[t].timedOut
    decreases |w.k.lists[2 * e]| - i
  {
    hide SweepWake, Satisfied, PcOk, Inv, WakersDiffer;
    if i < |w.k.lists[2 * e]| {
      if Satisfied(w, 2 * e, i) {
        SweepWakeEffect(w, 2 * e, i);
        SweepWakeCore(s, w, e, i);
        SweepLeaves(s, SweepWake(w, 2 * e, i), e, i);
      } else {
        SweepLeaves(s, w, e, i + 1);
      }
    }
  }

  lemma SetFlagsFrame(s: Sys, e: nat, bits: bv32)
    requires SysInv(s) && Enabled(s, SetBits(e, bits)) && SysInv(SetFlags(s, e, bits))
    ensures Frame(s, SetFlags(s, e, bits), |s.pcs| - 1, 2 * e)
  {
    hide Sweep, PcOk, Inv, WakersDiffer;
    var w := SweepStart(s, e, bits);
    StartCore(s, e, bits);
    SweepRank(s, w, e, 0);
    SweepLeaves(s, w, e, 0);
    OutsideFrame(s, SetFlags(s, e, bits), 2 * e);
  }

  predicate Outside(a: Action) {
    a.IsrGive? || a.IsrTake? || a.IsrSend? || a.IsrRecv? || a.SetBits? || a.ClearBits? || a.Tick? || a.Sleep? || a.PendSv?
  }

  predicate Pops(a: Action) {
    a.IsrGive? || a.IsrSend? || a.IsrRecv?
  }

  lemma PoppingFrame(s: Sys, a: Action, r: Sys)
    requires SysInv(s) && Enabled(s, a) && Pops(a) && r == Apply(s, a) && SysInv(r)
    ensures Frame(s, r, |s.pcs| - 1, PoppedList(s, a))
  {
    hide PopWake, PcOk, WakersDiffer, Frame, OneRunning, TaskOk, ListOk;
    match a
    case IsrGive(x) => PopWakeFrame(s, 2 * x, r);
    case IsrSend(q, item) => PopWakeFrame(s, 2 * q, r);
    case IsrRecv(q) => PopWakeFrame(s, 2 * q + 1, r);
    case _ => assert false;
  }

  lemma OutsideActionFrame(s: Sys, a: Action, r: Sys)
    requires SysInv(s) && Enabled(s, a) && Outside(a) && r == Apply(s, a) && SysInv(r)
    ensures Frame(s, r, |s.pcs| - 1, PoppedList(s, a))
  {
    hide SetFlags, Give, QueueFromIsr, TickN, PcOk, WakersDiffer, Frame, OneRunning, TaskOk, ListOk;
    if Pops(a) {
      PoppingFrame(s, a, r);
    } else {
      match a
      case SetBits(e, bits) => SetFlagsFrame(s, e, bits);
      case Tick => TimeFrame(s, 1, r);
      case Sleep(ms) => TimeFrame(s, ms, r);
      case _ => OutsideFrame(s, r, -1);
    }
  }

  lemma OwnActionFrame(s: Sys, a: Action, r: Sys)
    requires SysInv(s) && Enabled(s, a) && !Outside(a) && !MutexAction(s, a) && r == Apply(s, a) && SysInv(r)
    ensures Frame(s, r, s.k.current, PoppedList(s, a))
  {
    hide Advance, Delay, Yield, PcOk, WakersDiffer, Frame, ListOk;
    if a.Call? {
      MoveFrame(s, r);
    } else if a.Continue? {
      AdvanceFrame(s);
    } else if a.StartDelay? {
      DelayEffect(s.k, a.ms);
      MoveFrame(s, r);
    } else {
      RunnerAwake(s);
      YieldEffect(s.k);
      MoveFrame(s, r);
    }
  }

  /** Who acts: the running task, or the environment (the idle task stands for it). */
  function Actor(s: Sys, a: Action): int {
    if Outside(a) then |s.pcs| - 1 else s.k.current
  }

  lemma NonMutexFrame(s: Sys, a: Action)
    requires SysInv(s) && Enabled(s, a) && !MutexAction(s, a)
    ensures SysInv(Apply(s, a)) && Frame(s, Apply(s, a), Actor(s, a), PoppedList(s, a))
  {
    hide Apply, Frame;
    StepCore(s, a);
    if Outside(a) {
      OutsideActionFrame(s, a, Apply(s, a));
    } else {
      OwnActionFrame(s, a, Apply(s, a));
    }
  }
}
