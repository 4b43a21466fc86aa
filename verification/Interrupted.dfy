/** What an interrupt does inside the code that no critical section protects: a turn of the loop
    of `sched_tick_n`, its decision, PendSV, and the idle task's way from its budget to the
    sleep. The machine takes each as one step; here are the exact conditions. */
module Interrupted {
  import opened Selection
  import opened WaitQueue
  import opened Kernel
  import opened KernelLemmas
  import opened Ticks
  import opened System
  import opened Integrity
  import opened Channels
  import opened Timers
  import opened TimerRuns

  // ---- A turn of the loop, cut in two ----

  /** The last store of a turn: `t->state = TASK_READY`. */
  function MarkReady(k: State, t: nat): State
    requires t < |k.tasks|
  {
    SetState(k, t, Ready)
  }

  /** From the look at `wait_list_head` on. */
  function FromHead(k: State, t: nat): State
    requires Shaped(k) && t < |k.tasks|
  {
    var h := k.tasks[t].head;
    if h.None? then MarkReady(k, t)
    else
      var u := Unlink(k, t, h.value);
      MarkReady(SetTask(u, t, u.tasks[t].(head := None, timedOut := true)), t)
  }

  /** All of a turn behind its two checks. */
  function RestOfTurn(k: State, t: nat): State
    requires Shaped(k) && t < |k.tasks|
  {
    FromHead(SetTask(k, t, k.tasks[t].(delay := 0)), t)
  }

  /** A turn is its checks and this rest. */
  lemma TurnSplits(k: State, t: nat, e: nat)
    requires Shaped(k) && t < |k.tasks|
    ensures Expires(k.tasks[t], e) ==> Expire(k, t, e) == RestOfTurn(k, t)
  {
    if Expires(k.tasks[t], e) && k.tasks[t].head.Some? {
      var x := SetTask(k, t, k.tasks[t].(delay := 0));
      var l := k.tasks[t].head.value;
      assert Expire(k, t, e).tasks == FromHead(x, t).tasks;
    }
  }

  /** Nothing but the state of task `t`, now READY, and its other fields have changed. */
  lemma MarkReadyIff(k: State, t: nat)
    requires Linked(k) && t < Idle(k)
    ensures Linked(MarkReady(k, t)) <==> k.tasks[t].on.None? && k.tasks[t].delay == 0
  {
    assert TaskOk(k, t);
    var x := k.tasks[t].(state := Ready);
    if x.on.None? && x.delay == 0 {
      SetTaskLinked(k, t, x);
    } else {
      assert !TaskOk(MarkReady(k, t), t);
    }
  }

  /** An interrupt after the delay is cleared. */
  lemma FromHeadIff(k: State, t: nat)
    requires Linked(k) && t < Idle(k)
    ensures Shaped(k)
    ensures Linked(FromHead(k, t)) <==>
      (k.tasks[t].on.None? || k.tasks[t].on == k.tasks[t].head) && k.tasks[t].delay == 0
  {
    LinkedShaped(k);
    assert TaskOk(k, t);
    var h := k.tasks[t].head;
    if h.None? {
      MarkReadyIff(k, t);
    } else {
      var l := h.value;
      OnList(k, t, l);
      var i := IndexOf(k.lists[l], t);
      if i < |k.lists[l]| {
        UnlinkAtLinked(k, l, i);
      }
      var u := Unlink(k, t, l);
      var x := u.tasks[t].(head := None, timedOut := true);
      if x.delay == 0 || x.on.None? {
        SetTaskLinked(u, t, x);
        MarkReadyIff(SetTask(u, t, x), t);
      } else {
        assert !TaskOk(FromHead(k, t), t);
      }
    }
  }

  /** An interrupt after the checks: the rest of the turn keeps the lists intact just when the
      task is on no list by then, or still on the one that its head names. */
  lemma RestOfTurnIff(k: State, t: nat)
    requires Linked(k) && t < Idle(k)
    ensures Shaped(k)
    ensures Linked(RestOfTurn(k, t)) <==> k.tasks[t].on.None? || k.tasks[t].on == k.tasks[t].head
  {
    assert TaskOk(k, t);
    LinkedShaped(k);
    var x := k.tasks[t].(delay := 0);
    SetTaskLinked(k, t, x);
    FromHeadIff(SetTask(k, t, x), t);
  }

  /** The decision that ends the tick does not repair the lists, and nothing else is wrong. */
  lemma TornTurnIff(k: State, t: nat)
    requires Inv(k) && t < Idle(k)
    ensures Shaped(k) && Bounds(RestOfTurn(k, t))
    ensures Inv(Resched(RestOfTurn(k, t))) <==> k.tasks[t].on.None? || k.tasks[t].on == k.tasks[t].head
  {
    LinkedShaped(k);
    RestOfTurnIff(k, t);
    var r := RestOfTurn(k, t);
    assert forall u :: 0 <= u < |r.tasks| && r.tasks[u].state.Running? ==> u == r.next;
    if Linked(r) {
      ReschedDecides(r);
    } else if Linked(Resched(r)) {
      LinkedSame(Resched(r), r);
    }
  }

  /** A woken waiter of list `l` whose turn goes on all the same is told that it has timed out. Its
      wake-up is lost, which the list survives just if some other woken waiter can stand in. */
  lemma SpuriousTimeoutIff(s: Sys, t: nat, l: nat)
    requires SysInv(s) && NoLostWakeUp(s) && t < Idle(s.k) && l < |s.k.lists|
    requires IsToken(s, t, l) && s.pcs[t].op.p.Until? && s.k.tasks[t].head.Some?
    ensures var r := s.(k := RestOfTurn(s.k, t));
      && Shape(r) && r.k.lists == s.k.lists && r.k.tasks[t].timedOut && Tokens(r, l) == Tokens(s, l) - {t}
      && (NoLostWakeUp(r) <==> Sleeping(s, l) ==> Level(s, l) < |Tokens(s, l)|)
  {
    hide RestOfTurn, TaskOk, PcOk, WakersDiffer, Inv, Tokens, Sleeping;
    var r := s.(k := RestOfTurn(s.k, t));
    WokenTurn(s, t);
    TurnShape(s, r);
    TurnChannel(s, r, t, l);
    if Sleeping(s, l) ==> Level(s, l) < |Tokens(s, l)| {
      forall m: nat | m < |s.k.lists| ensures ChannelOk(r, m) {
        TurnChannel(s, r, t, m);
        assert ChannelOk(s, m);
      }
    }
  }

  lemma TurnShape(s: Sys, r: Sys)
    requires Shape(s) && r == s.(k := r.k) && Shaped(r.k)
    requires |r.k.tasks| == |s.k.tasks| && |r.k.lists| == |s.k.lists|
    ensures Shape(r)
  {
    forall u | 0 <= u < |s.pcs| ensures PcFits(r, u) {
      assert PcFits(s, u);
    }
  }

  lemma TurnChannel(s: Sys, r: Sys, t: nat, m: nat)
    requires Shape(s) && Shape(r) && r == s.(k := r.k) && t < |s.pcs| && m < |s.k.lists|
    requires r.k == SetTask(s.k, t, r.k.tasks[t]) && r.k.tasks[t].on.None? && r.k.tasks[t].timedOut
    requires s.pcs[t].Asleep? && s.pcs[t].op.p.Until? && IsToken(s, t, ListOf(s.pcs[t].op))
    ensures Tokens(r, m) == Tokens(s, m) - {t}
    ensures ChannelOk(r, m) <==>
      Sleeping(s, m) ==> Level(s, m) <= |Tokens(s, m)| - (if m == ListOf(s.pcs[t].op) then 1 else 0)
  {
    assert Tokens(r, m) == Tokens(s, m) - {t};
    if Sleeping(s, m) {
      var u :| 0 <= u < |s.k.tasks| && s.k.tasks[u].on == Some(m);
      assert r.k.tasks[u].on == Some(m);
    }
    if Sleeping(r, m) {
      var u :| 0 <= u < |r.k.tasks| && r.k.tasks[u].on == Some(m);
      assert s.k.tasks[u].on == Some(m);
    }
    if m != ListOf(s.pcs[t].op) {
      assert t !in Tokens(s, m);
      assert Tokens(s, m) - {t} == Tokens(s, m);
    }
  }

  lemma WokenTurn(s: Sys, t: nat)
    requires SysInv(s) && t < Idle(s.k) && s.k.tasks[t].on.None? && s.k.tasks[t].head.Some?
    ensures var r := RestOfTurn(s.k, t);
      && Shaped(r)
      && r == SetTask(s.k, t, s.k.tasks[t].(delay := 0, head := None, timedOut := true, state := Ready))
  {
    assert TaskOk(s.k, t);
    OnList(s.k, t, s.k.tasks[t].head.value);
    var x := SetTask(s.k, t, s.k.tasks[t].(delay := 0));
    assert Unlink(x, t, s.k.tasks[t].head.value) == x;
    RestOfTurnIff(s.k, t);
    LinkedShaped(RestOfTurn(s.k, t));
  }

  // ---- A decision, cut in three ----

  /** The stores of `sched_commit_next`: `g_next_task = c`, and RUNNING if it is READY. */
  function Mark(k: State, c: nat): State
    requires c < |k.tasks|
  {
    var m := if k.tasks[c].state.Ready? then SetState(k, c, Running) else k;
    m.(next := c)
  }

  /** A decision demotes and rolls back, selects, and marks. */
  lemma DecisionSplits(k: State)
    requires Bounds(k)
    ensures Resched(k) == Commit(Demote(k))
    ensures var b := RollBack(k); Commit(k) == Mark(b, Select(b.tasks, b.current))
  {
  }

  /** Nobody is RUNNING, as between roll-back and mark. */
  ghost predicate NobodyRuns(k: State) {
    forall t :: 0 <= t < |k.tasks| ==> !k.tasks[t].state.Running?
  }

  /** An interrupt between selection and mark, seen in state `k`: either it has made no choice or
      task `k.next` is RUNNING by its choice. The mark leaves one RUNNING task, `c`, just when no
      other choice has been made (and `c` has not blocked). */
  lemma MarkIff(k: State, c: nat)
    requires Linked(k) && (NobodyRuns(k) || OneRunning(k)) && c < |k.tasks|
    ensures Inv(Mark(k, c)) <==> (NobodyRuns(k) && !k.tasks[c].state.Blocked?) || (!NobodyRuns(k) && k.next == c)
  {
    var r := Mark(k, c);
    assert TaskOk(k, c);
    if k.tasks[c].state.Blocked? {
      assert !r.tasks[c].state.Running?;
    } else {
      SetTaskLinked(k, c, k.tasks[c].(state := Running));
      NextLinked(SetState(k, c, Running), c);
      assert r.tasks == SetState(k, c, Running).tasks;
      assert !NobodyRuns(k) && k.next != c ==> r.tasks[k.next].state.Running? && r.tasks[c].state.Running?;
    }
  }

  lemma NextLinked(k: State, c: nat)
    requires Linked(k) && c < |k.tasks|
    ensures Linked(k.(next := c))
  {
    forall l | 0 <= l < |k.lists| ensures ListOk(k.(next := c), l) {
      assert ListOk(k, l);
    }
    forall t | 0 <= t < |k.tasks| ensures TaskOk(k.(next := c), t) {
      assert TaskOk(k, t);
    }
  }

  lemma SelectAwake(k: State)
    requires Linked(k)
    ensures !k.tasks[Select(k.tasks, k.current)].state.Blocked?
  {
    SelectIsChoice(k.tasks, k.current);
    assert TaskOk(k, |k.tasks| - 1);
  }

  /** An interrupt between roll-back and selection: its own choice is not READY, so the selection
      passes over it, unless that is the idle task. */
  lemma SelectLateIff(k: State)
    requires Linked(k) && (NobodyRuns(k) || OneRunning(k))
    ensures Inv(Mark(k, Select(k.tasks, k.current))) <==>
      NobodyRuns(k) || (k.next == Idle(k) && forall t :: !Eligible(k.tasks, t))
  {
    SelectAwake(k);
    var c := Select(k.tasks, k.current);
    SelectIsChoice(k.tasks, k.current);
    MarkIff(k, c);
  }

  /** An interrupt between the demotion of the running task and `sched_commit_next`: the roll-back
      takes its choice back, unless that is the current task itself. */
  lemma CommitLateIff(k: State)
    requires Linked(k) && (NobodyRuns(k) || OneRunning(k))
    ensures Inv(Commit(k)) <==>
      NobodyRuns(k) || k.next != k.current || (k.next == Idle(k) && forall t :: !Eligible(k.tasks, t))
  {
    var b := RollBack(k);
    LinkedSame(k, b);
    SelectLateIff(b);
    if !NobodyRuns(k) && k.next == k.current {
      assert b == k;
    } else {
      assert NobodyRuns(b);
    }
  }

  // ---- PendSV, cut between load and store ----

  /** PendSV has loaded choice `c` and stores it in state `k`. If an interrupt has chosen a task
      other than the current one meanwhile, it has also requested PendSV again. */
  function Stored(k: State, c: nat): State {
    var r := k.(current := c);
    if k.next != k.current then Deliver(r) else r
  }

  /** The processor ends up with the chosen task unless an interrupt has chosen the task that was
      just being switched out. */
  lemma StoreIff(k: State, c: nat)
    ensures Stored(k, c).current == Stored(k, c).next <==> k.next == c || k.next != k.current
  {
  }

  // ---- A stale budget ----

  /** Whoever is woken after `e` milliseconds is woken at the end of its delay. */
  ghost predicate WokenOnTime(k: State, r: State, e: nat) {
    && |r.tasks| == |k.tasks|
    && forall t :: 0 <= t < |k.tasks| - 1 ==>
         (k.tasks[t].state.Blocked? && k.tasks[t].delay > 0 && !r.tasks[t].state.Blocked? ==> k.tasks[t].delay == e)
  }

  /** A sleep by a budget that was computed earlier oversleeps just when a shorter delay has been
      started since. */
  lemma StaleBudgetIff(k: State, e: nat)
    requires Inv(k)
    ensures Shaped(k)
    ensures WokenOnTime(k, TickN(k, e), e) <==> WithinBudget(k, e)
  {
    hide TickN;
    LinkedShaped(k);
    TickAges(k, e);
    var r := TickN(k, e);
    forall t | 0 <= t < |k.tasks| - 1 && k.tasks[t].state.Blocked? && k.tasks[t].delay > 0
      ensures !r.tasks[t].state.Blocked? <==> k.tasks[t].delay <= e
    {
      assert r.tasks[t].state.Blocked? <==> Aged(k.tasks[t], e).state.Blocked?;
    }
  }

  /** A timer is called late by what the sleep exceeds its remaining time. */
  lemma StaleBudgetDelaysTimer(w: Wheel, e: nat, i: nat, due: nat)
    requires i < |w.timers| && w.timers[i].callback.Some? && DueAt(w.timers[i], due)
    requires w.time < due <= w.time + TWO31 && 0 < e < TWO31
    ensures var left := due - w.time;
      CallsOf(After(w, SleepEvent(e)).calls, i) == CallsOf(w.calls, i) + if e < left then [] else [due + (e - left)]
  {
    hide CallsOf, Firings, DueSlots, Shown;
    var time := w.time + e;
    DueExactly(w.timers[i], due, time);
    ServiceCalls(w.timers, time, |w.timers|, i);
    CallsOfConcat(w.calls, Firings(DueSlots(w.timers, Shown(time), |w.timers|), time), i);
  }
}
