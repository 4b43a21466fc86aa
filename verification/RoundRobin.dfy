/** Round robin is starvation-free: while the set of best READY tasks is stable, each of
    them is switched in within as many tick-and-switch steps as the set has members. */
module RoundRobin {
  import opened Selection
  import opened Kernel
  import opened KernelLemmas

  predicate Runnable(k: State, t: int) {
    0 <= t < |k.tasks| - 1 && !k.tasks[t].state.Blocked?
  }

  /** The runnable tasks that no runnable task is better than. */
  ghost predicate Contends(k: State, t: int) {
    Runnable(k, t) && forall u :: Runnable(k, u) ==> k.tasks[t].prio <= k.tasks[u].prio
  }

  ghost function Contenders(k: State): set<int> {
    set t | 0 <= t < |k.tasks| && Contends(k, t)
  }

  /** One SysTick and the switch it asks for. */
  function TickAndSwitch(k: State): State
    requires Shaped(k)
  {
    Deliver(TickN(k, 1))
  }

  /** Undoing the current choice makes the runnable tasks READY and nothing else. */
  lemma RunnableEligible(k: State, u: int)
    requires Linked(k) && 0 <= u < |k.tasks| - 1
    requires forall t :: 0 <= t < |k.tasks| && k.tasks[t].state.Running? ==> t == k.next || t == k.current
    ensures var b := RollBack(Demote(k));
      && b.tasks[u].prio == k.tasks[u].prio
      && (Eligible(b.tasks, u) <==> !k.tasks[u].state.Blocked?)
  {
    assert TaskOk(k, u);
  }

  /** The independently defined choice, read over the runnable tasks of the outcome. */
  lemma ChoiceNearest(b: seq<Tcb>, current: nat, r: State, t: int)
    requires |b| == |r.tasks| > 0 && current < |b| && r.current == current
    requires forall u :: 0 <= u < |b| - 1 ==>
      b[u].prio == r.tasks[u].prio && (Eligible(b, u) <==> !r.tasks[u].state.Blocked?)
    requires IsChoice(b, current, r.next) && Contends(r, t)
    ensures Contends(r, r.next)
    ensures var n := |b| - 1;
      Distance(n, StartOf(b, current), r.next) <= Distance(n, StartOf(b, current), t)
  {
    assert Eligible(b, t);
    assert Eligible(b, r.next);
    forall u | Runnable(r, u) ensures r.tasks[r.next].prio <= r.tasks[u].prio {
      assert Eligible(b, u);
    }
    assert b[r.next].prio == b[t].prio;
  }

  /** A decision picks the nearest contender after the current task. */
  lemma ReschedNearest(k: State, r: State, t: int)
    requires Linked(k) && Bounds(k) && r == Resched(k)
    requires forall u :: 0 <= u < |k.tasks| && k.tasks[u].state.Running? ==> u == k.next || u == k.current
    requires Contends(r, t)
    ensures Contends(r, r.next)
    ensures var n := |k.tasks| - 1;
      Distance(n, StartOf(k.tasks, k.current), r.next) <= Distance(n, StartOf(k.tasks, k.current), t)
  {
    hide Resched, Demote, RollBack, Eligible, IsChoice, Contends, Linked, Inv, Decided, Distance;
    var b := RollBack(Demote(k)).tasks;
    ReschedDecides(k);
    forall u | 0 <= u < |k.tasks| - 1
      ensures b[u].prio == r.tasks[u].prio && (Eligible(b, u) <==> !r.tasks[u].state.Blocked?)
    {
      RunnableEligible(k, u);
    }
    ChoiceNearest(b, k.current, r, t);
  }

  /** A task that yields while another one contends is not chosen again; the nearest contender is. */
  lemma YieldHandsOver(k: State, t: nat)
    requires Inv(k) && k.current == k.next && k.current < Idle(k) && Contends(Yield(k), t) && t != k.current
    ensures var r, n := Yield(k), |k.tasks| - 1;
      r.next != k.current && Contends(r, r.next) && Distance(n, k.current, r.next) <= Distance(n, k.current, t)
  {
    hide Resched, Linked, TaskOk, Yield;
    YieldReschedules(k);
    ReschedNearest(k, Yield(k), t);
  }

  lemma YieldReschedules(k: State)
    requires Inv(k) && k.current == k.next && k.current < Idle(k)
    ensures Yield(k) == Resched(k) && Linked(k)
  {
    hide Commit;
  }

  lemma TickNearest(k: State, t: int)
    requires Inv(k) && Shaped(k) && Contends(TickN(k, 1), t)
    ensures var r, n := TickN(k, 1), |k.tasks| - 1;
      && Contends(r, r.next)
      && Distance(n, StartOf(k.tasks, k.current), r.next) <= Distance(n, StartOf(k.tasks, k.current), t)
  {
    hide ExpireUpTo, Resched, Contends, Distance, Linked;
    ExpireUpToInv(k, 1, |k.tasks| - 1);
    var x := ExpireUpTo(k, 1, |k.tasks| - 1);
    ReschedNearest(x, TickN(k, 1), t);
  }

  /** The members of `set` that come no later than `t` after `c`. */
  ghost function UpTo(contenders: set<int>, n: nat, c: nat, t: nat): set<int>
    requires c < n && t < n && forall r :: r in contenders ==> 0 <= r < n
  {
    set r | r in contenders && Distance(n, c, r) <= Distance(n, c, t)
  }

  /** Moving to the nearest member, not yet `t`, leaves fewer members up to `t`. */
  lemma OneCloser(contenders: set<int>, n: nat, c: nat, d: nat, t: nat)
    requires c < n && t < n && forall r :: r in contenders ==> 0 <= r < n
    requires t in contenders && d in contenders && d != t
    requires forall r :: r in contenders ==> Distance(n, c, d) <= Distance(n, c, r)
    ensures |UpTo(contenders, n, d, t)| < |UpTo(contenders, n, c, t)|
  {
    var a, b := UpTo(contenders, n, d, t), UpTo(contenders, n, c, t);
    forall r | r in a ensures r in b - {d} {
      assert Distance(n, c, d) != Distance(n, c, t);
    }
    assert a <= b - {d};
    assert b == (b - {d}) + {d};
    SubsetSize(a, b - {d});
  }

  /** A run of ticks, each followed by its switch, with the same contenders throughout. */
  ghost predicate StableRun(ks: seq<State>, contenders: set<int>) {
    && |ks| > 0 && Inv(ks[0]) && Shaped(ks[0])
    && (forall i :: 0 <= i < |ks| - 1 ==> Shaped(ks[i]) && ks[i + 1] == TickAndSwitch(ks[i]))
    && (forall i :: 1 <= i < |ks| ==> Contenders(ks[i]) == contenders)
  }

  lemma DeliverContenders(k: State)
    ensures Contenders(Deliver(k)) == Contenders(k)
  {
    forall t ensures Contends(Deliver(k), t) <==> Contends(k, t) {
      assert forall u :: Runnable(Deliver(k), u) <==> Runnable(k, u);
    }
  }

  lemma {:induction false} StableRunInv(ks: seq<State>, contenders: set<int>, i: nat)
    requires StableRun(ks, contenders) && i < |ks|
    ensures Inv(ks[i]) && |ks[i].tasks| == |ks[0].tasks|
  {
    hide TickN;
    if i > 0 {
      StableRunInv(ks, contenders, i - 1);
      assert ks[i] == TickAndSwitch(ks[i - 1]);
      TickInv(ks[i - 1], 1);
      DeliverInv(TickN(ks[i - 1], 1));
    }
  }

  lemma StepNearest(ks: seq<State>, contenders: set<int>, i: nat, t: int)
    requires StableRun(ks, contenders) && i + 1 < |ks| && t in contenders
    ensures Inv(ks[i]) && Inv(ks[i + 1]) && |ks[i + 1].tasks| == |ks[i].tasks|
    ensures 0 <= t < |ks[i].tasks| - 1 && ks[i + 1].current in contenders
    ensures var n := |ks[i].tasks| - 1;
      Distance(n, StartOf(ks[i].tasks, ks[i].current), ks[i + 1].current)
        <= Distance(n, StartOf(ks[i].tasks, ks[i].current), t)
  {
    hide TickN;
    StableRunInv(ks, contenders, i);
    StableRunInv(ks, contenders, i + 1);
    assert ks[i + 1] == TickAndSwitch(ks[i]);
    var r := TickN(ks[i], 1);
    TickInv(ks[i], 1);
    DeliverInv(r);
    DeliverContenders(r);
    assert Contenders(ks[i + 1]) == contenders;
    assert Contends(r, t);
    TickNearest(ks[i], t);
    assert r.next in Contenders(r);
  }

  /** Task `t` gets the processor after at most as many steps as there are contenders up to
      it, counted from the current task. */
  lemma {:induction false} ReachedInTurn(ks: seq<State>, contenders: set<int>, i: nat, t: nat, c: nat)
    requires StableRun(ks, contenders) && t in contenders && i < |ks|
    requires |ks[i].tasks| == |ks[0].tasks| && c == StartOf(ks[i].tasks, ks[i].current)
    requires forall r :: r in contenders ==> 0 <= r < |ks[0].tasks| - 1
    requires c < |ks[0].tasks| - 1
    requires i + |UpTo(contenders, |ks[0].tasks| - 1, c, t)| < |ks|
    ensures exists j :: i < j <= i + |UpTo(contenders, |ks[0].tasks| - 1, c, t)| && ks[j].current == t
    decreases |UpTo(contenders, |ks[0].tasks| - 1, c, t)|
  {
    hide TickAndSwitch, Contenders, Inv;
    var n := |ks[0].tasks| - 1;
    assert t in UpTo(contenders, n, c, t);
    var d := ks[i + 1].current;
    forall r | r in contenders ensures d in contenders && Distance(n, c, d) <= Distance(n, c, r) {
      StepNearest(ks, contenders, i, r);
    }
    if d != t {
      StepNearest(ks, contenders, i, t);
      OneCloser(contenders, n, c, d, t);
      ReachedInTurn(ks, contenders, i + 1, t, d);
      var j :| i + 1 < j <= i + 1 + |UpTo(contenders, n, d, t)| && ks[j].current == t;
    }
  }

  /** Every best READY task runs within |contenders| ticks, whoever was running. */
  lemma NobodyStarves(ks: seq<State>, contenders: set<int>, t: int)
    requires StableRun(ks, contenders) && t in contenders && |contenders| < |ks|
    ensures exists j :: 1 <= j <= |contenders| && ks[j].current == t
  {
    var n := |ks[0].tasks| - 1;
    assert contenders != {};
    SubsetSize({t}, contenders);
    forall r | r in contenders ensures 0 <= r < n {
      StepNearest(ks, contenders, 0, r);
    }
    var c := StartOf(ks[0].tasks, ks[0].current);
    SubsetSize(UpTo(contenders, n, c, t), contenders);
    ReachedInTurn(ks, contenders, 0, t, c);
  }
}
