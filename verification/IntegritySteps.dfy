/** Every action keeps the invariant; the list order and the quality of the choice too. */
module IntegritySteps {
  import opened Selection
  import opened Kernel
  import opened KernelLemmas
  import opened Effects
  import opened EventBits
  import opened Primitives
  import opened System
  import opened Integrity

  /** The choice is a best READY task, unless an unlock has just lowered a priority. */
  ghost predicate Ranked(s: Sys) {
    Bounds(s.k) && (s.lowered || Decided(s.k))
  }

  /** Nobody who holds a mutex waits in list `l`. */
  ghost predicate OwnersOff(s: Sys, l: nat) {
    forall m :: 0 <= m < |s.objs| && s.objs[m].Mutex? && s.objs[m].owner.Some? && s.objs[m].owner.value < |s.k.tasks|
      ==> s.k.tasks[s.objs[m].owner.value].on != Some(l)
  }

  /** Every list that was in order, with no mutex owner in it, still is in order. */
  ghost predicate OrderKept(s: Sys, r: Sys) {
    forall l: nat :: Sorted(s.k, l) && OwnersOff(s, l) ==> Sorted(r.k, l)
  }

  ghost predicate Core(s: Sys, r: Sys) {
    && SysInv(r)
    && OrderKept(s, r)
    && (Ranked(s) ==> Ranked(r))
  }

  lemma RunnerAwake(s: Sys)
    requires SysInv(s) && TaskRuns(s)
    ensures s.k.tasks[s.k.current].state.Running? && Awake(s.k.tasks[s.k.current])
    ensures s.k.tasks[s.k.current].delay == 0 && s.k.tasks[s.k.current].prio < NO_PRIO
  {
    assert TaskOk(s.k, s.k.current);
  }

  /** The running task goes to another point of the kernel or leaves it, perhaps tidying
      its own control block; objects, pool and log may change. */
  lemma MoveCore(s: Sys, r: Sys, x: Tcb)
    requires SysInv(s) && TaskRuns(s) && !s.pcs[s.k.current].Waking?
    requires SameFrame(s, r) && r.lowered == s.lowered
    requires r.pcs == s.pcs[s.k.current := r.pcs[s.k.current]]
    requires r.pcs[s.k.current].User? || r.pcs[s.k.current].Called? || r.pcs[s.k.current].Slow?
    requires PcFits(r, s.k.current)
    requires x == s.k.tasks[s.k.current] || x == s.k.tasks[s.k.current].(head := None, timedOut := x.timedOut)
    requires r.k == SetTask(s.k, s.k.current, x)
    ensures Core(s, r)
  {
    var c := s.k.current;
    RunnerAwake(s);
    assert TaskOk(s.k, c);
    SetTaskLinked(s.k, c, x);
    OneMoves(s, r, c);
    SetTaskSorted(s.k, c, x);
  }

  /** The running task blocks. */
  lemma BlockCore(s: Sys, r: Sys, op: Op)
    requires SysInv(s) && TaskRuns(s) && !s.pcs[s.k.current].Waking?
    requires SameFrame(s, r) && !r.lowered && ListOf(op) < |s.k.lists|
    requires r.pcs == s.pcs[s.k.current := r.pcs[s.k.current]]
    requires r.pcs[s.k.current].Asleep? && r.pcs[s.k.current].op == op && PcFits(r, s.k.current)
    requires !Passed(s, op.p)
    requires r.k == Block(s.k, ListOf(op), ArmFor(s, op))
    ensures SysInv(r) && KeepsOrder(s.k, r.k) && Ranked(r)
  {
    hide Block, Sorted;
    var c, l, arm := s.k.current, ListOf(op), ArmFor(s, op);
    RunnerAwake(s);
    BlockInv(s.k, l, arm);
    BlockEffect(s.k, l, arm);
    OneMoves(s, r, c);
  }

  lemma InheritInv(s: Sys, m: Object)
    requires SysInv(s) && TaskRuns(s)
    requires m.Mutex? && m.owner.Some? && OwnerFits(m, |s.k.tasks|)
    ensures var k := Inherit(s.k, m).0;
      && Inv(k) && OwnerFits(Inherit(s.k, m).1, |k.tasks|)
      && (forall l: nat :: Sorted(s.k, l) && s.k.tasks[m.owner.value].on != Some(l) ==> Sorted(k, l))
      && |k.tasks| == |s.k.tasks| && k.lists == s.k.lists && k.current == s.k.current && k.next == s.k.next
      && forall t :: 0 <= t < |k.tasks| ==> k.tasks[t] == s.k.tasks[t].(prio := k.tasks[t].prio)
  {
    RunnerAwake(s);
    var o := m.owner.value;
    var p := s.k.tasks[s.k.current].prio;
    assert TaskOk(s.k, o);
    if p < s.k.tasks[o].prio {
      SetTaskLinked(s.k, o, s.k.tasks[o].(prio := p));
      PrioSorted(s.k, o, p);
    }
  }

  /** The order of a list does not see the priority of a task that is not in it. */
  lemma PrioSorted(k: State, o: nat, p: nat)
    requires Linked(k) && o < |k.tasks|
    ensures var r := SetTask(k, o, k.tasks[o].(prio := p));
      forall l: nat :: Sorted(k, l) && k.tasks[o].on != Some(l) ==> Sorted(r, l)
  {
    var r := SetTask(k, o, k.tasks[o].(prio := p));
    forall l: nat | l < |k.lists| && Sorted(k, l) && k.tasks[o].on != Some(l) ensures Sorted(r, l) {
      assert ListOk(k, l);
      OrderedElsewhere(k.tasks, r.tasks, k.lists[l], o);
    }
  }

  lemma LockTryCore(s: Sys, op: Op)
    requires SysInv(s) && TaskRuns(s) && !s.pcs[s.k.current].Waking? && Fits(s.objs, op) && op.Lock?
    ensures Core(s, LockTry(s, op))
  {
    var c := s.k.current;
    var r := LockTry(s, op);
    var x := if s.objs[op.m].owner.None? && op.p.Until? then s.k.tasks[c].(head := None) else s.k.tasks[c];
    assert r.k.tasks == SetTask(s.k, c, x).tasks;
    MoveCore(s, r, x);
  }

  lemma LockSlowCore(s: Sys, op: Op)
    requires SysInv(s) && TaskRuns(s) && s.pcs[s.k.current] == Slow(op)
    requires Fits(s.objs, op) && op.Lock?
    ensures Core(s, LockSlow(s, op))
  {
    var c := s.k.current;
    var m := s.objs[op.m];
    var r := LockSlow(s, op);
    assert PcFits(s, c);
    assert s.k.tasks == s.k.tasks[c := s.k.tasks[c]];
    if Passed(s, op.p) || m.owner.None? {
      MoveCore(s, r, s.k.tasks[c]);
    } else {
      InheritedBlockCore(s, op, r);
    }
  }

  lemma InheritedBlockCore(s: Sys, op: Op, r: Sys)
    requires SysInv(s) && TaskRuns(s) && s.pcs[s.k.current] == Slow(op)
    requires Fits(s.objs, op) && op.Lock? && !op.p.Never? && !Passed(s, op.p) && s.objs[op.m].owner.Some?
    requires r == LockSlow(s, op)
    ensures Core(s, r)
  {
    hide Inherit, Block;
    var m := s.objs[op.m];
    InheritInv(s, m);
    var (k, n) := Inherit(s.k, m);
    var i := s.(k := k);
    QuietStep(s, i);
    BlockCore(i, r, op);
  }

  lemma TakeTryCore(s: Sys, op: Op)
    requires SysInv(s) && TaskRuns(s) && !s.pcs[s.k.current].Waking? && Fits(s.objs, op) && op.Take?
    ensures Core(s, TakeTry(s, op))
  {
    var c := s.k.current;
    var r := TakeTry(s, op);
    assert s.k.tasks == s.k.tasks[c := s.k.tasks[c]];
    if s.objs[op.x].count > 0 || op.p.Never? {
      MoveCore(s, r, s.k.tasks[c]);
    } else {
      BlockCore(s, r, op);
    }
  }

  /** A waiter of `l` is popped and woken in one critical section. */
  lemma PopWakeCore(s: Sys, l: nat, objs: seq<Object>)
    requires SysInv(s) && l < |s.k.lists|
    requires SameFrame(s, s.(objs := objs))
    ensures var r := s.(k := PopWake(s.k, l), objs := objs, lowered := s.lowered && s.k.lists[l] == []);
      && Core(s, r) && KeepsOrder(s.k, r.k)
      && (forall t :: 0 <= t < |s.pcs| && Awake(s.k.tasks[t]) ==> Unmoved(s.k.tasks[t], r.k.tasks[t]))
  {
    hide PopWake, Sorted, Decided;
    PopWakeInv(s.k, l);
    var r := s.(k := PopWake(s.k, l), objs := objs, lowered := s.lowered && s.k.lists[l] == []);
    if s.k.lists[l] == [] {
      PopWakeNone(s.k, l);
      QuietStep(s, r);
    } else {
      PopWakeEffect(s.k, l);
      OneWoken(s, r, s.k.lists[l][0]);
    }
  }

  lemma PopWakeNone(k: State, l: nat)
    requires Linked(k) && l < |k.lists| && k.lists[l] == []
    ensures PopWake(k, l) == k
  {
  }

  lemma PopThenWakeCore(s: Sys, l: nat, op: Op, objs: seq<Object>)
    requires SysInv(s) && TaskRuns(s) && !s.pcs[s.k.current].Waking? && l < |s.k.lists|
    requires SameFrame(s, s.(objs := objs))
    requires forall t :: 0 <= t < |s.pcs| && s.k.tasks[t].on == Some(l) ==>
      s.pcs[t].Asleep? && (s.pcs[t].op.Send? || s.pcs[t].op.Recv?)
    ensures Core(s, PopThenWake(s, l, op).(objs := objs))
  {
    var c := s.k.current;
    var r := PopThenWake(s, l, op).(objs := objs);
    var x := if op.p.Until? then s.k.tasks[c].(head := None) else s.k.tasks[c];
    assert s.k.tasks == s.k.tasks[c := s.k.tasks[c]];
    if s.k.lists[l] == [] {
      MoveCore(s, r, x);
    } else {
      var w := s.k.lists[l][0];
      assert ListOk(s.k, l);
      if s.k.tasks[w].delay > 0 {
        PopWakeMoveCore(s, l, op, objs);
      } else {
        PoppedCore(s, l, op, objs);
      }
    }
  }

  lemma PopWakeMoveCore(s: Sys, l: nat, op: Op, objs: seq<Object>)
    requires SysInv(s) && TaskRuns(s) && !s.pcs[s.k.current].Waking? && l < |s.k.lists|
    requires SameFrame(s, s.(objs := objs)) && s.k.lists[l] != []
    ensures Core(s, Finish(s.(k := PopWake(s.k, l), lowered := false), op.p).(objs := objs))
  {
    hide PopWake;
    var c := s.k.current;
    RunnerAwake(s);
    PopWakeInv(s.k, l);
    PopWakeEffect(s.k, l);
    PopWakeCore(s, l, objs);
    var i := s.(k := PopWake(s.k, l), objs := objs, lowered := s.lowered && s.k.lists[l] == []);
    var r := Finish(s.(k := PopWake(s.k, l), lowered := false), op.p).(objs := objs);
    LeaveCore(i, r, op.p);
  }

  /** The task that has just woken another one leaves its call. */
  lemma LeaveCore(i: Sys, r: Sys, p: Patience)
    requires SysInv(i) && i.k.current < |i.pcs| - 1 && Awake(i.k.tasks[i.k.current])
    requires !i.pcs[i.k.current].Waking? && Decided(i.k)
    requires r == Finish(i, p).(lowered := false)
    ensures SysInv(r) && Ranked(r) && KeepsOrder(i.k, r.k)
  {
    var c := i.k.current;
    var x := if p.Until? then i.k.tasks[c].(head := None) else i.k.tasks[c];
    assert i.k.tasks == i.k.tasks[c := i.k.tasks[c]];
    assert TaskOk(i.k, c);
    SetTaskLinked(i.k, c, x);
    OneMoves(i, r, c);
    SetTaskSorted(i.k, c, x);
  }

  lemma PoppedCore(s: Sys, l: nat, op: Op, objs: seq<Object>)
    requires SysInv(s) && TaskRuns(s) && !s.pcs[s.k.current].Waking? && l < |s.k.lists|
    requires SameFrame(s, s.(objs := objs)) && s.k.lists[l] != [] && s.k.lists[l][0] < |s.pcs|
    requires s.k.tasks[s.k.lists[l][0]].delay == 0 && s.k.tasks[s.k.lists[l][0]].on == Some(l)
    requires s.pcs[s.k.lists[l][0]].Asleep?
    requires s.pcs[s.k.lists[l][0]].op.Send? || s.pcs[s.k.lists[l][0]].op.Recv?
    ensures Core(s, Goto(s.(k := Pop(s.k, l)), Waking(s.k.lists[l][0], op)).(objs := objs))
  {
    var c := s.k.current;
    var w := s.k.lists[l][0];
    var r := Goto(s.(k := Pop(s.k, l)), Waking(w, op)).(objs := objs);
    RunnerAwake(s);
    UnlinkAtInv(s.k, l, 0);
    assert PcOk(s, w) && PcFits(s, w);
    assert TaskOk(s.k, w);
    OnePopped(s, r, c, w);
  }

  lemma OnListPc(s: Sys, l: nat)
    requires SysInv(s)
    ensures forall t :: 0 <= t < |s.pcs| && s.k.tasks[t].on == Some(l) ==>
      s.pcs[t].Asleep? && ListOf(s.pcs[t].op) == l && Fits(s.objs, s.pcs[t].op)
  {
    forall t | 0 <= t < |s.pcs| && s.k.tasks[t].on == Some(l)
      ensures s.pcs[t].Asleep? && ListOf(s.pcs[t].op) == l && Fits(s.objs, s.pcs[t].op)
    {
      assert PcOk(s, t) && TaskOk(s.k, t) && PcFits(s, t);
    }
  }

  lemma SendRecvTryCore(s: Sys, op: Op)
    requires SysInv(s) && TaskRuns(s) && !s.pcs[s.k.current].Waking? && Fits(s.objs, op) && (op.Send? || op.Recv?)
    ensures Core(s, TryOp(s, op))
  {
    hide PopThenWake, BlockOn;
    var c := s.k.current;
    var q := s.objs[op.q];
    var r := TryOp(s, op);
    assert s.k.tasks == s.k.tasks[c := s.k.tasks[c]];
    OnListPc(s, 2 * op.q);
    OnListPc(s, 2 * op.q + 1);
    if op.Send? && |q.items| < q.capacity {
      PopThenWakeCore(s, 2 * op.q, op, s.objs[op.q := q.(items := q.items + [op.item])]);
    } else if op.Recv? && |q.items| > 0 {
      PopThenWakeCore(s, 2 * op.q + 1, op, s.objs[op.q := q.(items := q.items[1..])]);
    } else if op.p.Never? || Passed(s, op.p) {
      MoveCore(s, r, s.k.tasks[c]);
    } else {
      BlockOnCore(s, op);
    }
  }

  lemma BlockOnCore(s: Sys, op: Op)
    requires SysInv(s) && TaskRuns(s) && !s.pcs[s.k.current].Waking? && Fits(s.objs, op)
    requires !op.p.Never? && !op.Await? && !Passed(s, op.p)
    ensures Core(s, BlockOn(s, op, 0))
  {
    BlockCore(s, BlockOn(s, op, 0), op);
  }

  lemma AwaitTryCore(s: Sys, op: Op)
    requires SysInv(s) && TaskRuns(s) && !s.pcs[s.k.current].Waking? && Fits(s.objs, op) && op.Await?
    ensures Core(s, AwaitTry(s, op))
  {
    hide Block, Met, Without;
    var c := s.k.current;
    var r := AwaitTry(s, op);
    assert s.k.tasks == s.k.tasks[c := s.k.tasks[c]];
    if Met(s.objs[op.e].bits, op.mask, op.mode) || Passed(s, op.p) || FreeSlot(s.pool) == |s.pool| {
      MoveCore(s, r, s.k.tasks[c]);
    } else {
      BlockCore(s, r, op);
    }
  }

  lemma TryOpCore(s: Sys, op: Op)
    requires SysInv(s) && TaskRuns(s) && !s.pcs[s.k.current].Waking? && Fits(s.objs, op)
    ensures Core(s, TryOp(s, op))
  {
    hide LockTry, TakeTry, SendTry, RecvTry, AwaitTry, Core;
    match op
    case Lock(_, _) => LockTryCore(s, op);
    case Take(_, _) => TakeTryCore(s, op);
    case Send(_, _, _) => SendRecvTryCore(s, op);
    case Recv(_, _) => SendRecvTryCore(s, op);
    case Await(_, _, _, _, _) => AwaitTryCore(s, op);
  }
}
