/** `sched_tick_n` in closed form, and why `sched_tick_n(a + b)` is `sched_tick_n(a)`
    followed by `sched_tick_n(b)`. */
module Ticks {
  import opened Selection
  import opened WaitQueue
  import opened Kernel
  import opened KernelLemmas

  predicate Expires(x: Tcb, e: nat) {
    x.state.Blocked? && 0 < x.delay <= e
  }

  /** What `e` milliseconds make of one control block. */
  function Aged(x: Tcb, e: nat): Tcb {
    if Expires(x, e) then
      x.(delay := 0, state := Ready, on := None, head := None, timedOut := x.timedOut || x.head.Some?)
    else if x.state.Blocked? && x.delay > 0 then x.(delay := x.delay - e)
    else x
  }

  /** `q` without the tasks of `gone`, in the same order. */
  function Keep(q: seq<nat>, gone: set<nat>): seq<nat> {
    if q == [] then []
    else if q[0] in gone then Keep(q[1..], gone)
    else [q[0]] + Keep(q[1..], gone)
  }

  ghost function Expiring(k: State, e: nat, n: nat): set<nat>
    requires n <= |k.tasks|
  {
    set t: nat | t < n && Expires(k.tasks[t], e)
  }

  lemma {:induction false} KeepMembers(q: seq<nat>, gone: set<nat>)
    ensures forall x :: x in Keep(q, gone) <==> x in q && x !in gone
  {
    if q != [] {
      KeepMembers(q[1..], gone);
    }
  }

  lemma {:induction false} KeepAll(q: seq<nat>, gone: set<nat>)
    requires forall x :: x in q ==> x !in gone
    ensures Keep(q, gone) == q
  {
    if q != [] {
      KeepAll(q[1..], gone);
    }
  }

  lemma {:induction false} KeepTwice(q: seq<nat>, a: set<nat>, b: set<nat>)
    ensures Keep(Keep(q, a), b) == Keep(q, a + b)
  {
    if q != [] {
      KeepTwice(q[1..], a, b);
      if q[0] !in a {
        assert Keep(q, a)[1..] == Keep(q[1..], a);
      }
    }
  }

  lemma RemoveFromCons(x: nat, r: seq<nat>, t: nat)
    ensures Remove([x] + r, t) == if x == t then r else [x] + Remove(r, t)
  {
    var q := [x] + r;
    assert q[1..] == r;
    if x == t {
      assert RemoveAt(q, 0) == r;
    } else {
      var i := IndexOf(r, t);
      assert IndexOf(q, t) == 1 + i;
      if i < |r| {
        assert RemoveAt(q, 1 + i) == [x] + RemoveAt(r, i);
      }
    }
  }

  lemma {:induction false} RemoveKept(q: seq<nat>, gone: set<nat>, t: nat)
    requires Distinct(q)
    ensures Remove(Keep(q, gone), t) == Keep(q, gone + {t})
  {
    if q != [] {
      var r := Keep(q[1..], gone);
      RemoveFromCons(q[0], r, t);
      if q[0] in gone || q[0] != t {
        RemoveKept(q[1..], gone, t);
      } else {
        KeepWithout(q[1..], gone, t);
      }
    }
  }

  lemma {:induction false} KeepWithout(q: seq<nat>, gone: set<nat>, t: nat)
    requires t !in q
    ensures Keep(q, gone + {t}) == Keep(q, gone)
  {
    if q != [] {
      KeepWithout(q[1..], gone, t);
    }
  }

  /** Turn `t` of the loop in closed form. */
  lemma ExpireIs(k: State, t: nat, e: nat)
    requires Linked(k) && t < Idle(k)
    ensures Shaped(k)
    ensures var r := Expire(k, t, e);
      && r.tasks == k.tasks[t := Aged(k.tasks[t], e)]
      && forall l :: 0 <= l < |k.lists| ==>
           r.lists[l] == if Expires(k.tasks[t], e) then Remove(k.lists[l], t) else k.lists[l]
  {
    LinkedShaped(k);
    assert TaskOk(k, t);
    forall l | 0 <= l < |k.lists| ensures t in k.lists[l] <==> k.tasks[t].on == Some(l) {
      OnList(k, t, l);
    }
  }

  /** Turns 0 to `n - 1` in closed form. */
  ghost predicate AgedUpTo(k: State, e: nat, n: nat, r: State)
    requires n <= |k.tasks|
  {
    && |r.tasks| == |k.tasks| && |r.lists| == |k.lists|
    && (forall t :: 0 <= t < |k.tasks| ==> r.tasks[t] == if t < n then Aged(k.tasks[t], e) else k.tasks[t])
    && (forall l :: 0 <= l < |k.lists| ==> r.lists[l] == Keep(k.lists[l], Expiring(k, e, n)))
  }

  lemma AgedUpToNext(k: State, e: nat, n: nat, m: State, r: State)
    requires n < |k.tasks| && AgedUpTo(k, e, n, m)
    requires forall l :: 0 <= l < |k.lists| ==> Distinct(k.lists[l])
    requires |r.lists| == |k.lists|
    requires r.tasks == m.tasks[n := Aged(m.tasks[n], e)]
    requires forall l :: 0 <= l < |m.lists| ==>
      r.lists[l] == if Expires(m.tasks[n], e) then Remove(m.lists[l], n) else m.lists[l]
    ensures AgedUpTo(k, e, n + 1, r)
  {
    var before, after := Expiring(k, e, n), Expiring(k, e, n + 1);
    assert after == if Expires(k.tasks[n], e) then before + {n} else before;
    forall l | 0 <= l < |k.lists| ensures r.lists[l] == Keep(k.lists[l], after) {
      RemoveKept(k.lists[l], before, n);
    }
  }

  lemma TurnAges(k: State, e: nat, n: nat, m: State)
    requires Linked(k) && Linked(m) && n < Idle(k) && AgedUpTo(k, e, n, m)
    ensures Shaped(m) && AgedUpTo(k, e, n + 1, Expire(m, n, e))
  {
    hide Expire, Aged, Keep, Remove, Expires;
    forall l | 0 <= l < |k.lists| ensures Distinct(k.lists[l]) {
      assert ListOk(k, l);
    }
    ExpireIs(m, n, e);
    AgedUpToNext(k, e, n, m, Expire(m, n, e));
  }

  lemma NothingAged(k: State, e: nat)
    ensures AgedUpTo(k, e, 0, k)
  {
    forall l | 0 <= l < |k.lists| ensures k.lists[l] == Keep(k.lists[l], Expiring(k, e, 0)) {
      KeepAll(k.lists[l], Expiring(k, e, 0));
    }
  }

  lemma {:induction false} ExpireUpToIs(k: State, e: nat, n: nat)
    requires Inv(k) && n <= Idle(k)
    ensures Shaped(k) && AgedUpTo(k, e, n, ExpireUpTo(k, e, n))
  {
    hide Expire, AgedUpTo, OneRunning, TaskOk, ListOk;
    LinkedShaped(k);
    if n == 0 {
      NothingAged(k, e);
    } else {
      ExpireUpToIs(k, e, n - 1);
      ExpireUpToInv(k, e, n - 1);
      TurnAges(k, e, n - 1, ExpireUpTo(k, e, n - 1));
    }
  }

  // ---- A decision depends only on who is blocked ----

  function Parked(s: TaskState): TaskState {
    if s.Blocked? then Blocked else Ready
  }

  /** Every task that is not blocked marked READY. */
  ghost function Undecided(k: State): State {
    k.(tasks := seq(|k.tasks|, t requires 0 <= t < |k.tasks| => k.tasks[t].(state := Parked(k.tasks[t].state))))
  }

  /** The decision made from scratch. */
  ghost function Decide(k: State): State
    requires Bounds(k)
  {
    var u := Undecided(k);
    var c := Select(u.tasks, u.current);
    u.(tasks := u.tasks[c := u.tasks[c].(state := if u.tasks[c].state.Ready? then Running else Blocked)], next := c)
  }

  /** Demote, roll back, select, mark is the decision made from scratch: nothing of an
      earlier, undelivered choice survives. */
  lemma ReschedFresh(k: State)
    requires Bounds(k)
    requires forall t :: 0 <= t < |k.tasks| && k.tasks[t].state.Running? ==> t == k.next || t == k.current
    ensures Resched(k) == Decide(k)
  {
    var b := RollBack(Demote(k));
    assert b.tasks == Undecided(k).tasks;
    assert Resched(k).tasks == Decide(k).tasks;
  }

  lemma DecideCongruent(a: State, b: State)
    requires Bounds(a) && Bounds(b) && SameParked(a, b)
    ensures Decide(a) == Decide(b)
  {
    assert Undecided(a).tasks == Undecided(b).tasks;
  }

  lemma TickDecides(k: State, e: nat)
    requires Inv(k)
    ensures Shaped(k) && TickN(k, e) == Decide(ExpireUpTo(k, e, |k.tasks| - 1))
  {
    LinkedShaped(k);
    var x := ExpireUpTo(k, e, |k.tasks| - 1);
    ExpireUpToInv(k, e, |k.tasks| - 1);
    ReschedFresh(x);
  }

  /** `r` is `k` after `e` milliseconds, decisions aside. */
  ghost predicate AgedState(k: State, e: nat, r: State)
    requires |k.tasks| > 0
  {
    && |r.tasks| == |k.tasks| && |r.lists| == |k.lists| && r.current == k.current && r.clock == k.clock
    && (forall t :: 0 <= t < |k.tasks| ==>
          && r.tasks[t] == Aged(k.tasks[t], e).(state := r.tasks[t].state)
          && (r.tasks[t].state.Blocked? <==> Aged(k.tasks[t], e).state.Blocked?))
    && (forall l :: 0 <= l < |k.lists| ==> r.lists[l] == Keep(k.lists[l], Expiring(k, e, |k.tasks| - 1)))
  }

  lemma AgedChoice(k: State, e: nat, x: State, r: State)
    requires |k.tasks| > 0 && AgedState(k, e, x) && SameButChoice(x, r)
    ensures AgedState(k, e, r)
  {
  }

  lemma LoopAges(k: State, e: nat)
    requires Inv(k)
    ensures Shaped(k) && AgedState(k, e, ExpireUpTo(k, e, |k.tasks| - 1))
  {
    ExpireUpToIs(k, e, |k.tasks| - 1);
    assert TaskOk(k, |k.tasks| - 1);
  }

  lemma TickAges(k: State, e: nat)
    requires Inv(k)
    ensures Shaped(k) && AgedState(k, e, TickN(k, e))
  {
    LinkedShaped(k);
    LoopAges(k, e);
    var x := ExpireUpTo(k, e, |k.tasks| - 1);
    AgedChoice(k, e, x, Resched(x));
  }

  lemma AgedTwice(x: Tcb, y: Tcb, a: nat, b: nat)
    requires y == Aged(x, a).(state := y.state)
    requires y.state.Blocked? <==> Aged(x, a).state.Blocked?
    requires !x.state.Blocked? ==> x.delay == 0
    ensures var u, v := Aged(y, b), Aged(x, a + b);
      u.(state := Parked(u.state)) == v.(state := Parked(v.state))
    ensures Expires(x, a + b) <==> Expires(x, a) || Expires(y, b)
  {
  }

  /** Equal but for READY/RUNNING marks and the choice. */
  ghost predicate SameParked(x: State, y: State) {
    && x.lists == y.lists && x.current == y.current && x.clock == y.clock && |x.tasks| == |y.tasks|
    && forall t :: 0 <= t < |x.tasks| ==>
         x.tasks[t].(state := Parked(x.tasks[t].state)) == y.tasks[t].(state := Parked(y.tasks[t].state))
  }

  lemma AgedTwiceState(k: State, a: nat, m: State, b: nat, x: State, y: State)
    requires |k.tasks| > 0 && (forall t :: 0 <= t < |k.tasks| ==> TaskOk(k, t))
    requires AgedState(k, a, m) && AgedState(m, b, x) && AgedState(k, a + b, y)
    ensures SameParked(x, y)
  {
    var n := |k.tasks| - 1;
    forall t | 0 <= t < |k.tasks|
      ensures x.tasks[t].(state := Parked(x.tasks[t].state)) == y.tasks[t].(state := Parked(y.tasks[t].state))
      ensures Expires(k.tasks[t], a + b) <==> Expires(k.tasks[t], a) || Expires(m.tasks[t], b)
    {
      assert TaskOk(k, t);
      AgedTwice(k.tasks[t], m.tasks[t], a, b);
    }
    assert Expiring(k, a, n) + Expiring(m, b, n) == Expiring(k, a + b, n);
    forall l | 0 <= l < |k.lists| ensures x.lists[l] == y.lists[l] {
      KeepTwice(k.lists[l], Expiring(k, a, n), Expiring(m, b, n));
    }
  }

  /** Ticks add up, whatever the tasks, the lists and the delays. */
  lemma TickAdds(k: State, a: nat, b: nat)
    requires Inv(k)
    ensures Shaped(k) && Inv(TickN(k, a))
    ensures TickN(TickN(k, a), b) == TickN(k, a + b)
  {
    LinkedShaped(k);
    var m := TickN(k, a);
    TickInv(k, a);
    TickAges(k, a);
    LoopAges(m, b);
    LoopAges(k, a + b);
    var x, y := ExpireUpTo(m, b, |k.tasks| - 1), ExpireUpTo(k, a + b, |k.tasks| - 1);
    AgedTwiceState(k, a, m, b, x, y);
    TickDecides(m, b);
    TickDecides(k, a + b);
    DecideCongruent(x, y);
  }

  /** `e` successive SysTick interrupts. */
  function TickMany(k: State, e: nat): (r: State)
    requires Shaped(k)
    ensures Shaped(r)
  {
    if e == 0 then k else TickN(TickMany(k, e - 1), 1)
  }

  lemma TickOneMore(k: State, e: nat, m: State)
    requires Inv(k) && Shaped(k) && m == TickN(k, e)
    ensures Inv(m) && Shaped(m) && TickN(m, 1) == TickN(k, e + 1)
  {
    TickAdds(k, e, 1);
  }

  /** One `sched_tick_n(e)` equals `e` calls of `sched_tick`. */
  lemma {:induction false} TickManyIsTickN(k: State, e: nat)
    requires Inv(k)
    ensures Shaped(k) && TickMany(k, e + 1) == TickN(k, e + 1)
  {
    hide TickN;
    LinkedShaped(k);
    if e == 0 {
      assert TickMany(k, 0) == k;
    } else {
      TickManyIsTickN(k, e - 1);
      TickOneMore(k, e, TickMany(k, e));
    }
  }
}
