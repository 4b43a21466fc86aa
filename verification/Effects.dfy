/** What the kernel operations do to each control block, decisions aside. */
module Effects {
  import opened Selection
  import opened WaitQueue
  import opened Kernel
  import opened KernelLemmas
  import opened Primitives

  /** The same control block, except that READY and RUNNING are not told apart. */
  ghost predicate Unmoved(x: Tcb, y: Tcb) {
    y == x.(state := y.state) && (y.state.Blocked? <==> x.state.Blocked?)
  }

  /** Nothing but task `c` and the choice differ. */
  ghost predicate Others(k: State, r: State, c: nat) {
    && |r.tasks| == |k.tasks| && |r.lists| == |k.lists| && r.current == k.current
    && forall t :: 0 <= t < |k.tasks| && t != c ==> Unmoved(k.tasks[t], r.tasks[t])
  }

  lemma BlockEffect(k: State, l: nat, arm: Arm)
    requires Bounds(k) && l < |k.lists| && InRange(k.lists[l], |k.tasks|)
    ensures var r, c := Block(k, l, arm), k.current;
      && Others(k, r, c)
      && r.lists == k.lists[l := Insert(k.lists[l], k.tasks, c)]
      && r.clock == k.clock + 1
      && r.tasks[c].state.Blocked?
      && r.tasks[c].on == Some(l) && r.tasks[c].stamp == k.clock && r.tasks[c].prio == k.tasks[c].prio
      && r.tasks[c].delay == (if arm.Timed? then arm.remaining else k.tasks[c].delay)
      && r.tasks[c].timedOut == (k.tasks[c].timedOut && !arm.Timed?)
  {
    hide Insert, Resched, Enqueue, SetTask;
    var c := k.current;
    var y := Prepared(k.tasks[c], l, arm);
    EnqueueEffect(k, y, l);
    var e := Enqueue(SetTask(k, c, y), c, l);
    assert SameButChoice(e, Resched(e));
  }

  /** The current task, prepared, goes into list `l`. */
  lemma EnqueueEffect(k: State, y: Tcb, l: nat)
    requires Bounds(k) && l < |k.lists| && InRange(k.lists[l], |k.tasks|) && y.prio == k.tasks[k.current].prio
    ensures |SetTask(k, k.current, y).tasks| == |k.tasks| && SetTask(k, k.current, y).lists == k.lists
    ensures var r := Enqueue(SetTask(k, k.current, y), k.current, l);
      && Bounds(r) && r.current == k.current
      && r.tasks == k.tasks[k.current := y.(on := Some(l), stamp := k.clock)]
      && r.lists == k.lists[l := Insert(k.lists[l], k.tasks, k.current)]
      && r.clock == k.clock + 1
  {
    InsertSame(k.lists[l], k.tasks, SetTask(k, k.current, y).tasks, k.current);
  }

  lemma WakeEffect(k: State, t: nat)
    requires Bounds(k) && t < |k.tasks|
    ensures var r := Wake(k, t);
      && Others(k, r, t)
      && r.lists == k.lists && r.clock == k.clock
      && !r.tasks[t].state.Blocked?
      && r.tasks[t] == k.tasks[t].(delay := 0, state := r.tasks[t].state)
  {
    var x := k.tasks[t].(delay := 0, state := Ready);
    assert SameButChoice(SetTask(k, t, x), Wake(k, t));
  }

  lemma DelayEffect(k: State, ms: nat)
    requires Bounds(k)
    ensures var r, c := Delay(k, ms), k.current;
      && Others(k, r, c)
      && r.lists == k.lists && r.clock == k.clock
      && r.tasks[c] == k.tasks[c].(delay := ms, state := Blocked)
  {
    var x := k.tasks[k.current].(delay := ms, state := Blocked);
    assert SameButChoice(SetTask(k, k.current, x), Delay(k, ms));
  }

  lemma YieldEffect(k: State)
    requires Bounds(k) && !k.tasks[k.current].state.Blocked?
    ensures SameButChoice(k, Yield(k))
  {
    assert SameButChoice(SetState(k, k.current, Ready), Yield(k));
  }

  /** The first waiter of `l`, woken in the critical section that popped it. */
  lemma PopWakeEffect(k: State, l: nat)
    requires Linked(k) && l < |k.lists| && k.lists[l] != []
    ensures InRange(k.lists[l], |k.tasks|)
    ensures var r, w := PopWake(k, l), k.lists[l][0];
      && w < Idle(k) && k.tasks[w].on == Some(l) && k.tasks[w].state.Blocked?
      && Others(k, r, w)
      && r.lists == k.lists[l := k.lists[l][1..]] && r.clock == k.clock
      && !r.tasks[w].state.Blocked?
      && r.tasks[w] == k.tasks[w].(on := None, delay := 0, state := r.tasks[w].state)
  {
    var w := k.lists[l][0];
    assert ListOk(k, l) && TaskOk(k, w);
    var p := Pop(k, l);
    assert p.lists[l] == k.lists[l][1..];
    WakeEffect(p, w);
  }

  lemma PopWakeInv(k: State, l: nat)
    requires Inv(k) && l < |k.lists|
    ensures InRange(k.lists[l], |k.tasks|)
    ensures Inv(PopWake(k, l))
    ensures k.lists[l] != [] ==> Decided(PopWake(k, l))
    ensures KeepsOrder(k, PopWake(k, l))
  {
    LinkedShaped(k);
    if k.lists[l] != [] {
      var w := k.lists[l][0];
      UnlinkAtInv(k, l, 0);
      assert ListOk(k, l) && TaskOk(k, w);
      WakeInv(Pop(k, l), w);
    }
  }

  /** One waiter woken by the event sweep. */
  lemma SweepWakeEffect(w: Swept, l: nat, i: nat)
    requires Inv(w.k) && l < |w.k.lists| && i < |w.k.lists[l]| && Satisfied(w, l, i)
    ensures Shaped(w.k)
    ensures var r, t := SweepWake(w, l, i), w.k.lists[l][i];
      && t < Idle(w.k) && w.k.tasks[t].on == Some(l) && w.k.tasks[t].state.Blocked?
      && Inv(r.k) && Decided(r.k) && KeepsOrder(w.k, r.k)
      && Others(w.k, r.k, t)
      && r.k.lists == w.k.lists[l := RemoveAt(w.k.lists[l], i)] && r.k.clock == w.k.clock
      && !r.k.tasks[t].state.Blocked?
      && r.k.tasks[t] == w.k.tasks[t].(on := None, head := None, delay := 0, state := r.k.tasks[t].state)
  {
    hide Wake, Sorted, Decided;
    LinkedShaped(w.k);
    var t := w.k.lists[l][i];
    assert ListOk(w.k, l) && TaskOk(w.k, t);
    var u := UnlinkAt(w.k, l, i);
    UnlinkAtInv(w.k, l, i);
    assert TaskOk(u, t);
    var x := u.tasks[t].(head := None);
    SetTaskLinked(u, t, x);
    SetTaskSorted(u, t, x);
    WakeInv(SetTask(u, t, x), t);
    WakeEffect(SetTask(u, t, x), t);
  }
}
