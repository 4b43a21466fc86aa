/** What every kernel operation keeps: wait-list integrity, one RUNNING task, list order. */
module KernelLemmas {
  import opened Selection
  import opened WaitQueue
  import opened Kernel

  // ---- Decisions ----

  lemma LinkedSame(k: State, r: State)
    requires Linked(k) && SameButChoice(k, r) && Bounds(r)
    ensures Linked(r)
  {
    forall l | 0 <= l < |r.lists| ensures ListOk(r, l) {
      assert ListOk(k, l);
    }
    forall t | 0 <= t < |r.tasks| ensures TaskOk(r, t) {
      assert TaskOk(k, t);
    }
  }

  lemma SortedSame(k: State, r: State)
    requires SameButChoice(k, r)
    ensures KeepsOrder(k, r)
  {
  }

  /** A decision leaves exactly one RUNNING task, a best READY one, whether or not an
      earlier choice had been delivered. */
  lemma CommitDecides(k: State)
    requires Linked(k)
    requires forall t :: 0 <= t < |k.tasks| && k.tasks[t].state.Running? ==> t == k.next != k.current
    ensures var r := Commit(k);
      && Inv(r) && Decided(r)
      && IsChoice(RollBack(k).tasks, k.current, r.next)
  {
    var b := RollBack(k);
    var r := Commit(k);
    LinkedSame(k, r);
    assert TaskOk(k, |k.tasks| - 1);
    SelectIsChoice(b.tasks, b.current);
    forall t | IsReady(r.tasks, t) ensures r.next != Idle(r) && r.tasks[r.next].prio <= r.tasks[t].prio {
      assert TaskOk(k, t);
      assert Eligible(b.tasks, t);
    }
  }

  lemma ReschedDecides(k: State)
    requires Linked(k)
    requires forall t :: 0 <= t < |k.tasks| && k.tasks[t].state.Running? ==> t == k.next || t == k.current
    ensures var r := Resched(k);
      && Inv(r) && Decided(r)
      && IsChoice(RollBack(Demote(k)).tasks, k.current, r.next)
  {
    LinkedSame(k, Demote(k));
    CommitDecides(Demote(k));
  }

  // ---- List surgery ----

  /** The current task, blocked and prepared, goes into list `l`. */
  lemma EnqueueLinked(k: State, x: Tcb, l: nat)
    requires Linked(k) && l < |k.lists| && k.current < Idle(k)
    requires k.tasks[k.current].on.None?
    requires x.state.Blocked? && x.on.None? && x.prio == k.tasks[k.current].prio
    requires (x.head.Some? ==> x.head.value < |k.lists|) && (x.delay > 0 ==> x.head == Some(l))
    ensures InRange(k.lists[l], |k.tasks|)
    ensures Linked(Enqueue(SetTask(k, k.current, x), k.current, l))
  {
    var c := k.current;
    var s := SetTask(k, c, x);
    assert ListOk(k, l);
    assert c !in k.lists[l];
    InsertMembers(k.lists[l], s.tasks, c);
    var r := Enqueue(s, c, l);
    forall m | 0 <= m < |r.lists| ensures ListOk(r, m) {
      assert ListOk(k, m);
      forall i | 0 <= i < |r.lists[m]| ensures r.lists[m][i] < |r.tasks| - 1 && r.tasks[r.lists[m][i]].on == Some(m) {
        assert r.lists[m][i] in r.lists[m];
        if m != l {
          assert k.lists[m][i] != c;
        }
      }
    }
    forall t | 0 <= t < |r.tasks| ensures TaskOk(r, t) {
      assert TaskOk(k, t);
    }
  }

  lemma EnqueueSorted(k: State, x: Tcb, l: nat)
    requires Linked(k) && l < |k.lists| && k.current < Idle(k)
    requires k.tasks[k.current].on.None?
    requires x.prio == k.tasks[k.current].prio
    ensures InRange(k.lists[l], |k.tasks|)
    ensures KeepsOrder(k, Enqueue(SetTask(k, k.current, x), k.current, l))
  {
    hide Sorted, Insert;
    assert ListOk(k, l);
    forall m: nat | Sorted(k, m) ensures Sorted(Enqueue(SetTask(k, k.current, x), k.current, l), m) {
      EnqueueSortedAt(k, x, l, m);
    }
  }

  lemma EnqueueSortedAt(k: State, x: Tcb, l: nat, m: nat)
    requires Linked(k) && l < |k.lists| && k.current < Idle(k)
    requires k.tasks[k.current].on.None? && x.prio == k.tasks[k.current].prio && Sorted(k, m)
    ensures InRange(k.lists[l], |k.tasks|)
    ensures Sorted(Enqueue(SetTask(k, k.current, x), k.current, l), m)
  {
    hide Insert, OneRunning, TaskOk;
    var c := k.current;
    assert ListOk(k, l);
    var s := SetTask(k, c, x);
    var r := Enqueue(s, c, l);
    if m < |k.lists| {
      assert ListOk(k, m);
      OrderedElsewhere(k.tasks, r.tasks, k.lists[m], c);
      if m == l {
        InsertSame(k.lists[l], s.tasks, r.tasks, c);
        InsertOrdered(k.lists[l], r.tasks, c);
      }
    }
  }

  /** The order of a list does not see a task that is not in it. */
  lemma OrderedElsewhere(a: seq<Tcb>, b: seq<Tcb>, q: seq<nat>, c: nat)
    requires |a| == |b| && InRange(q, |a|) && Ordered(a, q) && c !in q
    requires forall t :: 0 <= t < |a| && t != c ==> b[t] == a[t]
    ensures Ordered(b, q)
  {
    assert forall i :: 0 <= i < |q| ==> q[i] != c;
  }

  /** Insertion sees only priorities. */
  lemma InsertSame(q: seq<nat>, a: seq<Tcb>, b: seq<Tcb>, t: nat)
    requires |a| == |b| && InRange(q, |a|) && t < |a| && a[t].prio == b[t].prio
    requires forall i :: 0 <= i < |q| ==> a[q[i]].prio == b[q[i]].prio
    ensures Insert(q, a, t) == Insert(q, b, t)
  {
    SamePos(q, a, b, a[t].prio);
  }

  lemma {:induction false} SamePos(q: seq<nat>, a: seq<Tcb>, b: seq<Tcb>, p: nat)
    requires |a| == |b| && InRange(q, |a|)
    requires forall i :: 0 <= i < |q| ==> a[q[i]].prio == b[q[i]].prio
    ensures InsertPos(q, a, p) == InsertPos(q, b, p)
  {
    if q != [] {
      SamePos(q[1..], a, b, p);
    }
  }

  /** Entry `i` of list `l` comes out; it is still blocked, now on no list. */
  lemma UnlinkAtLinked(k: State, l: nat, i: nat)
    requires Linked(k) && l < |k.lists| && i < |k.lists[l]|
    ensures k.lists[l][i] < Idle(k)
    ensures Linked(UnlinkAt(k, l, i))
  {
    assert ListOk(k, l);
    var t := k.lists[l][i];
    var r := UnlinkAt(k, l, i);
    RemoveAtMembers(k.lists[l], i);
    forall m | 0 <= m < |r.lists| ensures ListOk(r, m) {
      assert ListOk(k, m);
      forall j | 0 <= j < |r.lists[m]| ensures r.lists[m][j] < |r.tasks| - 1 && r.tasks[r.lists[m][j]].on == Some(m) {
        assert r.lists[m][j] in r.lists[m];
      }
    }
    forall u | 0 <= u < |r.tasks| ensures TaskOk(r, u) {
      assert TaskOk(k, u);
    }
  }

  lemma UnlinkAtSorted(k: State, l: nat, i: nat)
    requires l < |k.lists| && i < |k.lists[l]| && k.lists[l][i] < |k.tasks|
    ensures KeepsOrder(k, UnlinkAt(k, l, i))
  {
    var r := UnlinkAt(k, l, i);
    if Sorted(k, l) {
      RemoveAtOrdered(k.tasks, k.lists[l], i);
    }
  }

  lemma SetTaskLinked(k: State, t: nat, x: Tcb)
    requires Linked(k) && t < |k.tasks|
    requires x.on == k.tasks[t].on
    requires TaskOk(k.(tasks := k.tasks[t := x]), t)
    ensures Linked(SetTask(k, t, x))
  {
    var r := SetTask(k, t, x);
    forall l | 0 <= l < |r.lists| ensures ListOk(r, l) {
      assert ListOk(k, l);
    }
    forall u | 0 <= u < |r.tasks| ensures TaskOk(r, u) {
      assert TaskOk(k, u);
    }
  }

  lemma SetTaskSorted(k: State, t: nat, x: Tcb)
    requires t < |k.tasks|
    requires x.prio == k.tasks[t].prio && x.stamp == k.tasks[t].stamp
    ensures KeepsOrder(k, SetTask(k, t, x))
  {
  }

  lemma LinkedShaped(k: State)
    requires Linked(k)
    ensures Shaped(k)
  {
    forall l | 0 <= l < |k.lists| ensures InRange(k.lists[l], |k.tasks|) {
      assert ListOk(k, l);
    }
    forall t | 0 <= t < |k.tasks| && k.tasks[t].head.Some? ensures k.tasks[t].head.value < |k.lists| {
      assert TaskOk(k, t);
    }
  }

  // ---- The operations ----

  lemma BlockInv(k: State, l: nat, arm: Arm)
    requires Inv(k) && k.current == k.next && k.current < Idle(k) && l < |k.lists|
    ensures Shaped(k) && Inv(Block(k, l, arm)) && Decided(Block(k, l, arm))
    ensures KeepsOrder(k, Block(k, l, arm))
  {
    LinkedShaped(k);
    assert TaskOk(k, k.current);
    var y := Prepared(k.tasks[k.current], l, arm);
    EnqueueLinked(k, y, l);
    var e := Enqueue(SetTask(k, k.current, y), k.current, l);
    ReschedDecides(e);
    EnqueueSorted(k, y, l);
    SortedSame(e, Resched(e));
  }

  lemma WakeInv(k: State, t: nat)
    requires Inv(k) && t < Idle(k) && k.tasks[t].on.None? && k.tasks[t].state.Blocked?
    ensures Inv(Wake(k, t)) && Decided(Wake(k, t))
    ensures KeepsOrder(k, Wake(k, t))
  {
    assert TaskOk(k, t);
    var x := k.tasks[t].(delay := 0, state := Ready);
    SetTaskLinked(k, t, x);
    ReschedDecides(SetTask(k, t, x));
    SetTaskSorted(k, t, x);
    SortedSame(SetTask(k, t, x), Wake(k, t));
  }

  lemma DelayInv(k: State, ms: nat)
    requires Inv(k) && k.current == k.next && k.current < Idle(k)
    ensures Inv(Delay(k, ms)) && Decided(Delay(k, ms))
    ensures KeepsOrder(k, Delay(k, ms))
  {
    assert TaskOk(k, k.current);
    var x := k.tasks[k.current].(delay := ms, state := Blocked);
    SetTaskLinked(k, k.current, x);
    CommitDecides(SetTask(k, k.current, x));
    SetTaskSorted(k, k.current, x);
    SortedSame(SetTask(k, k.current, x), Delay(k, ms));
  }

  lemma YieldInv(k: State)
    requires Inv(k) && k.current == k.next && k.current < Idle(k)
    ensures Inv(Yield(k)) && Decided(Yield(k))
    ensures KeepsOrder(k, Yield(k))
  {
    assert TaskOk(k, k.current);
    var x := k.tasks[k.current].(state := Ready);
    SetTaskLinked(k, k.current, x);
    CommitDecides(SetTask(k, k.current, x));
    SetTaskSorted(k, k.current, x);
    SortedSame(SetTask(k, k.current, x), Yield(k));
  }

  lemma UnlinkAtInv(k: State, l: nat, i: nat)
    requires Inv(k) && l < |k.lists| && i < |k.lists[l]|
    ensures k.lists[l][i] < Idle(k) && Inv(UnlinkAt(k, l, i))
    ensures KeepsOrder(k, UnlinkAt(k, l, i))
  {
    UnlinkAtLinked(k, l, i);
    UnlinkAtSorted(k, l, i);
  }

  /** A list member is on that list and only there. */
  lemma OnList(k: State, t: nat, l: nat)
    requires Linked(k) && t < |k.tasks| && l < |k.lists|
    ensures t in k.lists[l] <==> k.tasks[t].on == Some(l)
  {
    assert ListOk(k, l) && TaskOk(k, t);
  }

  lemma ExpireInv(k: State, t: nat, e: nat)
    requires Inv(k) && t < Idle(k)
    ensures Shaped(k) && Inv(Expire(k, t, e))
    ensures KeepsOrder(k, Expire(k, t, e))
  {
    LinkedShaped(k);
    var x := k.tasks[t];
    assert TaskOk(k, t);
    if x.state.Blocked? && x.delay > 0 {
      if x.delay <= e && x.head.Some? {
        var l := x.head.value;
        OnList(k, t, l);
        var i := IndexOf(k.lists[l], t);
        if i < |k.lists[l]| {
          UnlinkAtInv(k, l, i);
        }
        var u := Unlink(k, t, l);
        assert u.tasks[t].on.None?;
        assert TaskOk(u, t);
        var y := u.tasks[t].(delay := 0, head := None, timedOut := true, state := Ready);
        SetTaskLinked(u, t, y);
        SetTaskSorted(u, t, y);
      } else {
        var y := if x.delay > e then x.(delay := x.delay - e) else x.(delay := 0, state := Ready);
        SetTaskLinked(k, t, y);
        SetTaskSorted(k, t, y);
      }
    }
  }

  lemma {:induction false} ExpireUpToInv(k: State, e: nat, n: nat)
    requires Inv(k) && n <= Idle(k)
    ensures Shaped(k) && Inv(ExpireUpTo(k, e, n))
    ensures KeepsOrder(k, ExpireUpTo(k, e, n))
  {
    LinkedShaped(k);
    if n > 0 {
      ExpireUpToInv(k, e, n - 1);
      ExpireInv(ExpireUpTo(k, e, n - 1), n - 1, e);
    }
  }

  lemma TickInv(k: State, e: nat)
    requires Inv(k)
    ensures Shaped(k) && Inv(TickN(k, e)) && Decided(TickN(k, e))
    ensures KeepsOrder(k, TickN(k, e))
  {
    ExpireUpToInv(k, e, |k.tasks| - 1);
    var x := ExpireUpTo(k, e, |k.tasks| - 1);
    ReschedDecides(x);
    SortedSame(x, Resched(x));
  }

  lemma DeliverInv(k: State)
    requires Inv(k)
    ensures Inv(Deliver(k))
  {
    var r := Deliver(k);
    forall l | 0 <= l < |r.lists| ensures ListOk(r, l) {
      assert ListOk(k, l);
    }
    forall t | 0 <= t < |r.tasks| ensures TaskOk(r, t) {
      assert TaskOk(k, t);
    }
  }

  lemma SubsetSize(a: set<int>, b: set<int>)
    requires a <= b
    ensures |a| <= |b|
  {
    assert b == a + (b - a);
  }
}
