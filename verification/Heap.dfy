/** The scheduler's data as it is in memory: task control blocks linked by `wait_next`, list
    heads, and the two global task pointers. Every method is proved to change the abstract
    state `k` by the operation of the same name in module Kernel. */
module Heap {
  import opened Selection
  import opened WaitQueue
  import opened Kernel

  class Task {
    var state: TaskState
    var prio: nat
    var delay: nat
    var waitNext: Task?
    var waitListHead: WaitList?
    var timedOut: bool

    constructor (priority: nat)
      ensures state == Ready && prio == priority && delay == 0 && waitListHead == null && !timedOut
    {
      state, prio, delay := Ready, priority, 0;
      waitNext, waitListHead, timedOut := null, null, false;
    }
  }

  /** The cell that holds the first waiter of a primitive. */
  class WaitList {
    var first: Task?

    constructor ()
      ensures first == null
    {
      first := null;
    }
  }

  /** The control block `x`, its list head named by number, is `y`. */
  ghost predicate IsTcb(x: Task, y: Tcb, lists: seq<WaitList>)
    reads x`state, x`prio, x`delay, x`timedOut, x`waitListHead
  {
    && x.state == y.state && x.prio == y.prio && x.delay == y.delay && x.timedOut == y.timedOut
    && (y.head.None? ==> x.waitListHead == null)
    && (y.head.Some? ==> y.head.value < |lists| && x.waitListHead == lists[y.head.value])
  }

  /** Entry `i` of list `q` as a pointer. */
  ghost function Node(tasks: seq<Task>, q: seq<nat>, i: nat): Task?
    requires InRange(q, |tasks|)
  {
    if i < |q| then tasks[q[i]] else null
  }

  /** `links` are the `wait_next` pointers of `tasks`; from `first` on they spell out `q`. */
  ghost predicate Chain(tasks: seq<Task>, links: seq<Task?>, first: Task?, q: seq<nat>)
    requires InRange(q, |tasks|) && |links| == |tasks|
  {
    && first == Node(tasks, q, 0)
    && forall i :: 0 <= i < |q| ==> links[q[i]] == Node(tasks, q, i + 1)
  }

  ghost predicate Differ<T>(s: seq<T>) {
    forall i, j :: 0 <= i < j < |s| ==> s[i] != s[j]
  }

  /** Lists do not share tasks and do not repeat them. */
  ghost predicate ListsOk(k: State) {
    Shaped(k) && forall l :: 0 <= l < |k.lists| ==> ListOk(k, l)
  }

  lemma EnqueueLists(k: State, t: nat, l: nat)
    requires ListsOk(k) && t < Idle(k) && l < |k.lists| && k.tasks[t].on.None?
    ensures ListsOk(Enqueue(k, t, l))
  {
    var r := Enqueue(k, t, l);
    assert ListOk(k, l);
    InsertMembers(k.lists[l], k.tasks, t);
    forall m | 0 <= m < |r.lists| ensures ListOk(r, m) && InRange(r.lists[m], |r.tasks|) {
      assert ListOk(k, m);
      forall i | 0 <= i < |r.lists[m]| ensures r.lists[m][i] < |r.tasks| - 1 && r.tasks[r.lists[m][i]].on == Some(m) {
        assert r.lists[m][i] in r.lists[m];
        if m != l {
          assert k.lists[m][i] != t;
        }
      }
    }
  }

  lemma UnlinkAtLists(k: State, l: nat, i: nat)
    requires ListsOk(k) && l < |k.lists| && i < |k.lists[l]|
    ensures ListsOk(UnlinkAt(k, l, i))
  {
    var t := k.lists[l][i];
    var r := UnlinkAt(k, l, i);
    assert ListOk(k, l);
    RemoveAtMembers(k.lists[l], i);
    forall m | 0 <= m < |r.lists| ensures ListOk(r, m) && InRange(r.lists[m], |r.tasks|) {
      assert ListOk(k, m);
      forall j | 0 <= j < |r.lists[m]| ensures r.lists[m][j] < |r.tasks| - 1 && r.tasks[r.lists[m][j]].on == Some(m) {
        assert r.lists[m][j] in r.lists[m];
      }
    }
  }

  /** Members of different lists differ. */
  lemma ListsApart(k: State, l: nat, m: nat, i: nat, j: nat)
    requires ListsOk(k) && l < |k.lists| && m < |k.lists| && i < |k.lists[l]| && j < |k.lists[m]|
    requires l != m || i != j
    ensures k.lists[l][i] != k.lists[m][j]
  {
    assert ListOk(k, l) && ListOk(k, m);
  }

  ghost predicate Chains(tasks: seq<Task>, links: seq<Task?>, firsts: seq<Task?>, k: State) {
    && |links| == |tasks| == |k.tasks| && |firsts| == |k.lists| && ListsOk(k)
    && forall l :: 0 <= l < |k.lists| ==> Chain(tasks, links, firsts[l], k.lists[l])
  }

  lemma InsertPosIs(q: seq<nat>, tasks: seq<Tcb>, p: nat, n: nat)
    requires InRange(q, |tasks|) && n <= |q|
    requires forall j :: 0 <= j < n ==> tasks[q[j]].prio <= p
    requires n < |q| ==> tasks[q[n]].prio > p
    ensures InsertPos(q, tasks, p) == n
  {
  }

  /** `r` is `q` with `t` as entry `n`. */
  ghost predicate Spliced(q: seq<nat>, t: nat, n: nat, r: seq<nat>) {
    |r| == |q| + 1 && n <= |q| && r[n] == t
    && (forall i :: 0 <= i < n ==> r[i] == q[i])
    && (forall i :: n < i < |r| ==> r[i] == q[i - 1])
  }

  /** The pointers of a list after `t` was spliced in as entry `n`. */
  lemma SpliceIn(tasks: seq<Task>, links: seq<Task?>, after: seq<Task?>, first: Task?, q: seq<nat>, t: nat, n: nat, r: seq<nat>)
    requires InRange(q, |tasks|) && |after| == |links| == |tasks| && t < |tasks| && Spliced(q, t, n, r)
    requires Chain(tasks, links, first, q)
    requires after[t] == Node(tasks, q, n)
    requires n > 0 ==> after[q[n - 1]] == tasks[t]
    requires forall i :: 0 <= i < |q| && i != n - 1 ==> after[q[i]] == links[q[i]]
    ensures InRange(r, |tasks|) && Chain(tasks, after, if n == 0 then tasks[t] else first, r)
  {
    forall i | 0 <= i < |r| ensures r[i] < |tasks| {
    }
    forall i | 0 <= i < |r| ensures after[r[i]] == Node(tasks, r, i + 1) {
      if i > n {
        assert r[i] == q[i - 1];
        assert i + 1 < |r| ==> r[i + 1] == q[i];
      } else if i == n {
        assert n + 1 < |r| ==> r[n + 1] == q[n];
      }
    }
  }

  /** `r` is `q` without entry `n`. */
  ghost predicate Bypassed(q: seq<nat>, n: nat, r: seq<nat>) {
    |r| == |q| - 1 && n < |q|
    && (forall i :: 0 <= i < n ==> r[i] == q[i])
    && (forall i :: n <= i < |r| ==> r[i] == q[i + 1])
  }

  /** The pointers of a list after entry `n` was bypassed. */
  lemma SpliceOut(tasks: seq<Task>, links: seq<Task?>, after: seq<Task?>, first: Task?, q: seq<nat>, n: nat, r: seq<nat>)
    requires InRange(q, |tasks|) && |after| == |links| == |tasks| && Bypassed(q, n, r)
    requires Chain(tasks, links, first, q)
    requires n > 0 ==> after[q[n - 1]] == links[q[n]]
    requires forall i :: 0 <= i < |q| && i != n - 1 ==> after[q[i]] == links[q[i]]
    ensures InRange(r, |tasks|) && Chain(tasks, after, if n == 0 then links[q[0]] else first, r)
  {
    forall i | 0 <= i < |r| ensures r[i] < |tasks| {
    }
    forall i | 0 <= i < |r| ensures after[r[i]] == Node(tasks, r, i + 1) {
      if i >= n {
        assert r[i] == q[i + 1];
        assert i + 1 < |r| ==> r[i + 1] == q[i + 2];
      } else if i == n - 1 {
        assert n < |r| ==> r[n] == q[n + 1];
      }
    }
  }

  /** Pointers of tasks that are not on a list do not matter to it. */
  lemma ChainFrame(tasks: seq<Task>, links: seq<Task?>, after: seq<Task?>, first: Task?, q: seq<nat>)
    requires InRange(q, |tasks|) && |links| == |tasks| == |after| && Chain(tasks, links, first, q)
    requires forall i :: 0 <= i < |q| ==> after[q[i]] == links[q[i]]
    ensures Chain(tasks, after, first, q)
  {
  }

  /** The other lists, when only pointers of list `l` and of an unlinked task change. */
  lemma OtherChains(tasks: seq<Task>, links: seq<Task?>, after: seq<Task?>, firsts: seq<Task?>, k: State, l: nat, m: nat)
    requires Chains(tasks, links, firsts, k) && |after| == |tasks| && l < |k.lists| && m < |k.lists| && m != l
    requires forall u :: 0 <= u < |tasks| && after[u] != links[u] ==> k.tasks[u].on.None? || k.tasks[u].on == Some(l)
    ensures InRange(k.lists[m], |tasks|) && Chain(tasks, after, firsts[m], k.lists[m])
  {
    assert ListOk(k, m);
    ChainFrame(tasks, links, after, firsts[m], k.lists[m]);
  }

  /** All lists together, after list `l` and its pointers changed. */
  lemma ChainsAfter(tasks: seq<Task>, links: seq<Task?>, after: seq<Task?>, firsts: seq<Task?>, first: Task?,
                    k: State, r: State, l: nat)
    requires Chains(tasks, links, firsts, k) && ListsOk(r) && |after| == |tasks| == |r.tasks| && l < |k.lists|
    requires |r.lists| == |k.lists| && r.lists == k.lists[l := r.lists[l]]
    requires Chain(tasks, after, first, r.lists[l])
    requires forall u :: 0 <= u < |tasks| && after[u] != links[u] ==> k.tasks[u].on.None? || k.tasks[u].on == Some(l)
    ensures Chains(tasks, after, firsts[l := first], r)
  {
    hide ListOk, Chain;
    forall m | 0 <= m < |k.lists| && m != l
      ensures InRange(k.lists[m], |tasks|) && Chain(tasks, after, firsts[m], k.lists[m])
    {
      OtherChains(tasks, links, after, firsts, k, l, m);
    }
  }

  /** The pointers after `wq_insert` at entry `n`. */
  ghost predicate InsertedLinks(tasks: seq<Task>, links: seq<Task?>, first: Task?, q: seq<nat>, t: nat, n: nat, after: seq<Task?>)
    requires InRange(q, |tasks|) && |links| == |tasks| && t < |tasks|
  {
    n <= |q| && after == if n == 0 then links[t := first] else links[t := links[q[n - 1]]][q[n - 1] := tasks[t]]
  }

  lemma InsertedChain(tasks: seq<Task>, links: seq<Task?>, after: seq<Task?>, first: Task?, q: seq<nat>, t: nat, n: nat)
    requires InRange(q, |tasks|) && |links| == |tasks| && t < |tasks| && Chain(tasks, links, first, q)
    requires Distinct(q) && t !in q && InsertedLinks(tasks, links, first, q, t, n, after)
    ensures var r := q[..n] + [t] + q[n..];
      InRange(r, |tasks|) && |after| == |tasks| && Chain(tasks, after, if n == 0 then tasks[t] else first, r)
  {
    var r := q[..n] + [t] + q[n..];
    hide Chain;
    LinksElsewhere(links, after, q, n, Some(t));
    InsertedAt(tasks, links, after, first, q, t, n);
    SplicedConcat(q, t, n);
    SpliceIn(tasks, links, after, first, q, t, n, r);
  }

  lemma InsertedAt(tasks: seq<Task>, links: seq<Task?>, after: seq<Task?>, first: Task?, q: seq<nat>, t: nat, n: nat)
    requires InRange(q, |tasks|) && |links| == |tasks| && t < |tasks| && Chain(tasks, links, first, q)
    requires t !in q && InsertedLinks(tasks, links, first, q, t, n, after)
    ensures |after| == |tasks| && after[t] == Node(tasks, q, n)
    ensures n > 0 ==> after[q[n - 1]] == tasks[t]
  {
    if n > 0 {
      assert q[n - 1] in q;
    }
  }

  lemma SplicedConcat(q: seq<nat>, t: nat, n: nat)
    requires n <= |q|
    ensures Spliced(q, t, n, q[..n] + [t] + q[n..])
  {
  }

  lemma BypassedConcat(q: seq<nat>, n: nat)
    requires n < |q|
    ensures Bypassed(q, n, RemoveAt(q, n))
  {
  }

  /** Pointers that differ belong to entry `n - 1` or to the newcomer. */
  lemma LinksElsewhere(links: seq<Task?>, after: seq<Task?>, q: seq<nat>, n: nat, t: Option<nat>)
    requires InRange(q, |links|) && |after| == |links| && Distinct(q) && n <= |q|
    requires t.Some? ==> t.value !in q
    requires forall u :: 0 <= u < |links| && after[u] != links[u] ==> t == Some(u) || (n > 0 && u == q[n - 1])
    ensures forall i :: 0 <= i < |q| && i != n - 1 ==> after[q[i]] == links[q[i]]
  {
    forall i | 0 <= i < |q| && i != n - 1 ensures after[q[i]] == links[q[i]] {
      assert q[i] in q;
    }
  }

  /** Members of list `l`. */
  lemma ListMembers(k: State, l: nat)
    requires ListsOk(k) && l < |k.lists|
    ensures InRange(k.lists[l], |k.tasks|) && Distinct(k.lists[l])
    ensures forall u :: u in k.lists[l] ==> u < Idle(k) && k.tasks[u].on == Some(l)
  {
    assert ListOk(k, l);
  }

  /** `wq_insert` in pointers, all lists together. */
  lemma EnqueueChains(tasks: seq<Task>, links: seq<Task?>, after: seq<Task?>, firsts: seq<Task?>, k: State, t: nat, l: nat, n: nat)
    requires Chains(tasks, links, firsts, k) && t < Idle(k) && l < |k.lists| && k.tasks[t].on.None?
    requires n == InsertPos(k.lists[l], k.tasks, k.tasks[t].prio)
    requires InsertedLinks(tasks, links, firsts[l], k.lists[l], t, n, after)
    ensures Chains(tasks, after, firsts[l := if n == 0 then tasks[t] else firsts[l]], Enqueue(k, t, l))
  {
    hide ListsOk, Chain;
    ListMembers(k, l);
    EnqueueLists(k, t, l);
    InsertedChain(tasks, links, after, firsts[l], k.lists[l], t, n);
    ChainsAfter(tasks, links, after, firsts, if n == 0 then tasks[t] else firsts[l], k, Enqueue(k, t, l), l);
  }

  /** The pointers after entry `n` was bypassed. */
  ghost predicate BypassedLinks(links: seq<Task?>, q: seq<nat>, n: nat, after: seq<Task?>)
    requires InRange(q, |links|)
  {
    n < |q| && after == if n == 0 then links else links[q[n - 1] := links[q[n]]]
  }

  lemma BypassedChain(tasks: seq<Task>, links: seq<Task?>, after: seq<Task?>, first: Task?, q: seq<nat>, n: nat)
    requires InRange(q, |tasks|) && |links| == |tasks| && Chain(tasks, links, first, q)
    requires Distinct(q) && BypassedLinks(links, q, n, after)
    ensures InRange(RemoveAt(q, n), |tasks|) && |after| == |tasks|
    ensures Chain(tasks, after, if n == 0 then links[q[0]] else first, RemoveAt(q, n))
  {
    hide Chain;
    LinksElsewhere(links, after, q, n, None);
    BypassedConcat(q, n);
    SpliceOut(tasks, links, after, first, q, n, RemoveAt(q, n));
  }

  /** Taking entry `n` out of list `l`, all lists together. */
  lemma UnlinkChains(tasks: seq<Task>, links: seq<Task?>, after: seq<Task?>, firsts: seq<Task?>, k: State, l: nat, n: nat)
    requires Chains(tasks, links, firsts, k) && l < |k.lists|
    requires InRange(k.lists[l], |links|) && BypassedLinks(links, k.lists[l], n, after)
    ensures Chains(tasks, after, firsts[l := if n == 0 then links[k.lists[l][0]] else firsts[l]], UnlinkAt(k, l, n))
  {
    hide ListsOk, Chain;
    ListMembers(k, l);
    UnlinkAtLists(k, l, n);
    BypassedChain(tasks, links, after, firsts[l], k.lists[l], n);
    ChainsAfter(tasks, links, after, firsts, if n == 0 then links[k.lists[l][0]] else firsts[l], k, UnlinkAt(k, l, n), l);
  }

  /** One step along a chain. */
  lemma ChainStep(tasks: seq<Task>, links: seq<Task?>, first: Task?, q: seq<nat>, i: nat)
    requires InRange(q, |tasks|) && |links| == |tasks| && Chain(tasks, links, first, q) && i < |q|
    ensures links[q[i]] == Node(tasks, q, i + 1)
  {
  }

  /** Nothing that is in memory differs, pointers aside. */
  ghost predicate SameInMemory(k: State, r: State) {
    && |r.tasks| == |k.tasks| && r.current == k.current && r.next == k.next
    && forall t :: 0 <= t < |k.tasks| ==> r.tasks[t] == k.tasks[t].(on := r.tasks[t].on, stamp := r.tasks[t].stamp)
  }

  lemma EnqueueSame(k: State, t: nat, l: nat)
    requires t < |k.tasks| && l < |k.lists| && InRange(k.lists[l], |k.tasks|)
    ensures SameInMemory(k, Enqueue(k, t, l))
  {
  }

  lemma UnlinkSame(k: State, t: nat, l: nat)
    requires l < |k.lists| && InRange(k.lists[l], |k.tasks|)
    ensures SameInMemory(k, Unlink(k, t, l))
  {
  }

  class Scheduler {
    const tasks: seq<Task>
    const lists: seq<WaitList>
    ghost const nodes: set<Task>
    ghost const cells: set<WaitList>
    var current: Task
    var next: Task
    ghost var k: State
    ghost var links: seq<Task?>
    ghost var firsts: seq<Task?>

    /** The tasks created so far and the primitives' empty lists; the last task is idle. */
    constructor (ts: seq<Task>, ls: seq<WaitList>)
      requires |ts| > 0 && Differ(ts) && Differ(ls)
      requires forall t :: 0 <= t < |ts| ==>
        ts[t].state.Ready? && ts[t].delay == 0 && ts[t].waitListHead == null && !ts[t].timedOut
      requires forall l :: 0 <= l < |ls| ==> ls[l].first == null
      ensures tasks == ts && lists == ls && Valid()
      ensures forall t :: 0 <= t < |ts| ==> k.tasks[t] == Tcb(Ready, ts[t].prio, 0, None, false, None, 0)
      ensures forall l :: 0 <= l < |ls| ==> k.lists[l] == []
    {
      tasks, lists := ts, ls;
      nodes, cells := set x | x in ts, set x | x in ls;
      current, next := ts[|ts| - 1], ts[|ts| - 1];
      k := State(
        seq(|ts|, t requires 0 <= t < |ts| reads ts => Tcb(Ready, ts[t].prio, 0, None, false, None, 0)),
        seq(|ls|, _ => []),
        |ts| - 1, |ts| - 1, 1);
      links := seq(|ts|, t requires 0 <= t < |ts| reads ts => ts[t].waitNext);
      firsts := seq(|ls|, _ => null);
    }

    /** `nodes` are the control blocks and `cells` the list heads, each used once. */
    ghost predicate Distinguished() {
      && Differ(tasks) && Differ(lists)
      && (forall t :: 0 <= t < |tasks| ==> tasks[t] in nodes)
      && (forall l :: 0 <= l < |lists| ==> lists[l] in cells)
    }

    /** `links` and `firsts` are the pointers in memory. */
    ghost predicate Mirrored()
      reads this`links, this`firsts, nodes`waitNext, cells`first
    {
      && Distinguished()
      && |links| == |tasks| && (forall t :: 0 <= t < |tasks| ==> links[t] == tasks[t].waitNext)
      && |firsts| == |lists| && (forall l :: 0 <= l < |lists| ==> firsts[l] == lists[l].first)
    }

    ghost predicate Tcbs(ts: seq<Tcb>)
      reads nodes`state, nodes`prio, nodes`delay, nodes`timedOut, nodes`waitListHead
    {
      Distinguished() && |ts| == |tasks| && forall t :: 0 <= t < |tasks| ==> IsTcb(tasks[t], ts[t], lists)
    }

    /** The memory holds exactly what `k` says. */
    ghost predicate Valid()
      reads this, nodes, cells
    {
      && Distinguished()
      && Mirrored() && Chains(tasks, links, firsts, k) && Fields(k)
    }

    /** `task->wait_next = v`. */
    method SetNext(ghost t: nat, task: Task, v: Task?)
      requires Distinguished() && Mirrored() && t < |tasks| && task == tasks[t]
      modifies this`links, nodes`waitNext
      ensures Mirrored() && links == old(links)[t := v]
    {
      task.waitNext := v;
      links := links[t := v];
    }

    /** `*head = v`. */
    method SetFirst(head: WaitList, ghost l: nat, v: Task?)
      requires Distinguished() && Mirrored() && l < |lists| && head == lists[l]
      modifies this`firsts, cells`first
      ensures Mirrored() && firsts == old(firsts)[l := v]
    {
      head.first := v;
      firsts := firsts[l := v];
    }

    /** The loop of `wq_insert`: the last entry that stays in front of priority `p`. */
    method WalkPast(first: Task, p: nat, ghost q: seq<nat>) returns (cur: Task, ghost i: nat)
      requires Mirrored() && InRange(q, |tasks|) && Chain(tasks, links, first, q)
      requires q != [] && tasks[q[0]].prio <= p
      ensures i < |q| && cur == tasks[q[i]]
      ensures forall j :: 0 <= j <= i ==> tasks[q[j]].prio <= p
      ensures i + 1 < |q| ==> tasks[q[i + 1]].prio > p
    {
      hide Distinguished;
      cur, i := first, 0;
      while cur.waitNext != null && cur.waitNext.prio <= p
        invariant 0 <= i < |q| && cur == tasks[q[i]]
        invariant forall j :: 0 <= j <= i ==> tasks[q[j]].prio <= p
        decreases |q| - i
      {
        assert links[q[i]] == cur.waitNext;
        cur := cur.waitNext;
        i := i + 1;
      }
      assert links[q[i]] == cur.waitNext;
    }

    /** The memory matches, pointers aside. */
    ghost predicate Fields(r: State)
      reads this`current, this`next, nodes`state, nodes`prio, nodes`delay, nodes`timedOut, nodes`waitListHead
    {
      Tcbs(r.tasks) && Bounds(r) && current == tasks[r.current] && next == tasks[r.next]
    }

    lemma FieldsSame(a: State, b: State)
      requires Fields(a) && SameInMemory(a, b)
      ensures Fields(b)
    {
      forall t | 0 <= t < |tasks| ensures IsTcb(tasks[t], b.tasks[t], lists) {
        assert IsTcb(tasks[t], a.tasks[t], lists);
      }
    }

    /** What a matching memory means for list `l`. */
    lemma Disassemble(l: nat)
      requires Valid() && l < |lists|
      ensures Distinguished() && Mirrored() && Chains(tasks, links, firsts, k) && Fields(k)
      ensures |links| == |tasks| == |k.tasks| && |firsts| == |lists| == |k.lists|
      ensures InRange(k.lists[l], |tasks|) && Chain(tasks, links, firsts[l], k.lists[l])
    {
      assert ListOk(k, l);
    }

    lemma Unlisted(l: nat, t: nat)
      requires Valid() && l < |lists| && t < Idle(k) && k.tasks[t].on.None?
      ensures t < |tasks| && t !in k.lists[l]
    {
      assert ListOk(k, l);
    }

    /** A memory whose parts match `k`. */
    lemma Assemble()
      requires Distinguished() && Mirrored() && Chains(tasks, links, firsts, k) && Fields(k)
      ensures Valid()
    {
    }

    /** The head of list `q`, read from memory. */
    lemma ReadFirst(l: nat, q: seq<nat>)
      requires Mirrored() && l < |lists| && InRange(q, |tasks|) && Chain(tasks, links, firsts[l], q)
      ensures |links| == |tasks| && |firsts| == |lists| && lists[l].first == firsts[l] && firsts == firsts[l := firsts[l]]
      ensures firsts[l] == if q == [] then null else if q[0] < |tasks| then tasks[q[0]] else null
      ensures forall i :: 0 <= i < |q| ==> q[i] < |tasks|
    {
    }

    /** `wq_insert` in front of everybody. */
    method SpliceFront(head: WaitList, ghost l: nat, ghost t: nat, task: Task, ghost q: seq<nat>)
      requires Distinguished() && Mirrored() && l < |lists| && head == lists[l] && t < |tasks| && task == tasks[t]
      requires InRange(q, |tasks|)
      modifies this`links, this`firsts, nodes`waitNext, cells`first
      ensures Mirrored() && firsts == old(firsts)[l := task]
      ensures InsertedLinks(tasks, old(links), old(firsts)[l], q, t, 0, links)
    {
      SetNext(t, task, head.first);
      SetFirst(head, l, task);
    }

    /** `wq_insert` behind entry `n` of the list, `cur`. */
    method SpliceBehind(cur: Task, ghost t: nat, task: Task, ghost q: seq<nat>, ghost n: nat, ghost first: Task?)
      requires Distinguished() && Mirrored() && t < |tasks| && task == tasks[t]
      requires InRange(q, |tasks|) && n < |q| && cur == tasks[q[n]] && q[n] != t
      modifies this`links, nodes`waitNext
      ensures Mirrored() && InsertedLinks(tasks, old(links), first, q, t, n + 1, links)
    {
      SetNext(t, task, cur.waitNext);
      SetNext(q[n], cur, task);
    }

    /** The pointer work of `wq_insert`: `task` becomes entry `n`. */
    method SpliceTask(head: WaitList, ghost l: nat, ghost t: nat, task: Task, ghost q: seq<nat>) returns (ghost n: nat)
      requires Distinguished() && Mirrored() && l < |lists| && head == lists[l] && t < |tasks| && task == tasks[t]
      requires InRange(q, |tasks|) && t !in q && Chain(tasks, links, firsts[l], q)
      modifies this`links, this`firsts, nodes`waitNext, cells`first
      ensures n <= |q| && Mirrored() && InsertedLinks(tasks, old(links), old(firsts)[l], q, t, n, links)
      ensures firsts == old(firsts)[l := if n == 0 then task else old(firsts)[l]]
      ensures forall j :: 0 <= j < n ==> tasks[q[j]].prio <= task.prio
      ensures n < |q| ==> tasks[q[n]].prio > task.prio
    {
      hide *;
      ReadFirst(l, q);
      var first := head.first;
      if first == null || task.prio < first.prio {
        n := 0;
        SpliceFront(head, l, t, task, q);
      } else {
        var cur;
        cur, n := WalkPast(first, task.prio, q);
        SpliceBehind(cur, t, task, q, n, first);
        n := n + 1;
      }
    }

    /** `wq_insert` is `Enqueue`. */
    lemma Inserted(ls: seq<Task?>, fs: seq<Task?>, l: nat, t: nat, n: nat)
      requires Chains(tasks, ls, fs, k) && Fields(k) && t < Idle(k) && l < |k.lists| && k.tasks[t].on.None?
      requires n <= |k.lists[l]| && InRange(k.lists[l], |tasks|)
      requires forall j :: 0 <= j < n ==> tasks[k.lists[l][j]].prio <= tasks[t].prio
      requires n < |k.lists[l]| ==> tasks[k.lists[l][n]].prio > tasks[t].prio
      requires |ls| == |tasks| && |fs| == |lists| == |k.lists|
      requires InsertedLinks(tasks, ls, fs[l], k.lists[l], t, n, links)
      requires firsts == fs[l := if n == 0 then tasks[t] else fs[l]]
      ensures Chains(tasks, links, firsts, Enqueue(k, t, l)) && Fields(Enqueue(k, t, l))
    {
      var q := k.lists[l];
      forall u | 0 <= u < |tasks| ensures tasks[u].prio == k.tasks[u].prio {
        assert IsTcb(tasks[u], k.tasks[u], lists);
      }
      hide Chains, InsertedLinks, Fields, Tcbs, SameInMemory;
      InsertPosIs(q, k.tasks, k.tasks[t].prio, n);
      EnqueueChains(tasks, ls, links, fs, k, t, l, n);
      EnqueueSame(k, t, l);
      FieldsSame(k, Enqueue(k, t, l));
    }

    /** `wq_insert`; `task->wait_next = NULL` comes first and is always overwritten. */
    method WqInsert(head: WaitList, ghost l: nat, ghost t: nat, task: Task)
      requires Valid() && l < |lists| && head == lists[l] && t < Idle(k) && task == tasks[t] && k.tasks[t].on.None?
      modifies this`k, this`links, this`firsts, nodes`waitNext, cells`first
      ensures Valid() && k == Enqueue(old(k), t, l)
    {
      hide *;
      Disassemble(l);
      Unlisted(l, t);
      ghost var q, ls, fs := k.lists[l], links, firsts;
      ghost var n := SpliceTask(head, l, t, task, q);
      Inserted(ls, fs, l, t, n);
      k := Enqueue(k, t, l);
      Assemble();
    }

    /** `wq_pop`: null when the list is empty. */
    method WqPop(head: WaitList, ghost l: nat) returns (task: Task?)
      requires Valid() && l < |lists| && head == lists[l]
      modifies this`k, this`firsts, cells`first
      ensures Valid()
      ensures old(k.lists[l]) == [] ==> task == null && k == old(k)
      ensures old(k.lists[l]) != [] ==>
        old(k.lists[l][0]) < |tasks| && task == tasks[old(k.lists[l][0])] && k == Pop(old(k), l)
    {
      hide *;
      Disassemble(l);
      ghost var q, fs := k.lists[l], firsts;
      ReadFirst(l, q);
      task := head.first;
      if task != null {
        ReadNext(q[0], task);
        SetFirst(head, l, task.waitNext);
        Popped(fs, l);
        k := Pop(k, l);
        Assemble();
      }
    }

    lemma ReadNext(t: nat, task: Task)
      requires Mirrored() && t < |tasks| && task == tasks[t]
      ensures |links| == |tasks| && links[t] == task.waitNext
    {
    }

    /** `wq_pop` is `Pop`. */
    lemma Popped(fs: seq<Task?>, l: nat)
      requires l < |k.lists| && |links| == |tasks| && |fs| == |lists| == |k.lists|
      requires Chains(tasks, links, fs, k) && Fields(k)
      requires InRange(k.lists[l], |tasks|) && k.lists[l] != [] && firsts == fs[l := links[k.lists[l][0]]]
      ensures k.lists[l][0] < |k.tasks|
      ensures Chains(tasks, links, firsts, Pop(k, l)) && Fields(Pop(k, l))
    {
      assert |k.tasks| == |tasks|;
      hide Chains, Fields;
      UnlinkChains(tasks, links, links, fs, k, l, 0);
      FieldsSame(k, Pop(k, l));
    }

    /** The walk of `sched_wait_list_remove`: the entry in front of `task`, if there is one. */
    method WalkBefore(first: Task?, task: Task, ghost q: seq<nat>) returns (cur: Task?, ghost i: nat)
      requires Mirrored() && InRange(q, |tasks|) && Chain(tasks, links, first, q) && first != task
      ensures i <= |q| && forall j :: 0 <= j <= i && j < |q| ==> tasks[q[j]] != task
      ensures if cur == null then i == |q| else i + 1 < |q| && cur == tasks[q[i]] && tasks[q[i + 1]] == task
    {
      hide Distinguished;
      cur, i := first, 0;
      while cur != null && cur.waitNext != task
        invariant 0 <= i <= |q| && cur == Node(tasks, q, i)
        invariant forall j :: 0 <= j <= i && j < |q| ==> tasks[q[j]] != task
        decreases |q| - i
      {
        assert links[q[i]] == cur.waitNext;
        cur := cur.waitNext;
        i := i + 1;
      }
      if cur != null {
        assert links[q[i]] == cur.waitNext;
      }
    }

    /** The pointer work of `sched_wait_list_remove`: entry `n` is bypassed, if `task` is one. */
    method BypassTask(head: WaitList, ghost l: nat, ghost t: nat, task: Task, ghost q: seq<nat>) returns (ghost n: nat)
      requires Distinguished() && Mirrored()
      requires l < |lists| && head == lists[l] && t < |tasks| && task == tasks[t]
      requires InRange(q, |tasks|) && Chain(tasks, links, firsts[l], q)
      modifies this`links, this`firsts, nodes`waitNext, cells`first
      ensures Mirrored() && n <= |q|
      ensures forall j :: 0 <= j < n ==> q[j] != t
      ensures n == |q| ==> links == old(links) && firsts == old(firsts)
      ensures n < |q| ==>
        && q[n] == t && BypassedLinks(old(links), q, n, links)
        && firsts == old(firsts)[l := if n == 0 then old(links)[t] else old(firsts)[l]]
    {
      FirstIs(tasks, links, firsts[l], q);
      hide Chain;
      if head.first == task {
        SetFirst(head, l, task.waitNext);
        n := 0;
        assert tasks[q[0]] == tasks[t];
      } else {
        var cur;
        cur, n := WalkBefore(head.first, task, q);
        if cur != null {
          SetNext(q[n], cur, task.waitNext);
          n := n + 1;
          assert tasks[q[n]] == tasks[t];
        }
      }
    }

    /** `sched_wait_list_remove`. */
    method WaitListRemove(head: WaitList, ghost l: nat, ghost t: nat, task: Task)
      requires Valid() && l < |lists| && head == lists[l] && t < |tasks| && task == tasks[t]
      modifies this`k, this`links, this`firsts, nodes`waitNext, cells`first
      ensures Valid() && k == Unlink(old(k), t, l)
    {
      hide *;
      Disassemble(l);
      ghost var q, ls, fs := k.lists[l], links, firsts;
      ghost var n := BypassTask(head, l, t, task, q);
      Removed(ls, fs, l, t, n);
      k := Unlink(k, t, l);
      Assemble();
    }

    /** `sched_wait_list_remove` is `Unlink`. */
    lemma Removed(ls: seq<Task?>, fs: seq<Task?>, l: nat, t: nat, n: nat)
      requires l < |k.lists| && |ls| == |tasks| && |fs| == |lists| == |k.lists|
      requires Chains(tasks, ls, fs, k) && Fields(k)
      requires InRange(k.lists[l], |tasks|) && n <= |k.lists[l]|
      requires forall j :: 0 <= j < n ==> k.lists[l][j] != t
      requires n == |k.lists[l]| ==> links == ls && firsts == fs
      requires n < |k.lists[l]| ==>
        && t < |ls| && k.lists[l][n] == t && BypassedLinks(ls, k.lists[l], n, links)
        && firsts == fs[l := if n == 0 then ls[t] else fs[l]]
      ensures |k.tasks| == |tasks|
      ensures Chains(tasks, links, firsts, Unlink(k, t, l)) && Fields(Unlink(k, t, l))
    {
      assert |k.tasks| == |tasks|;
      hide Chains, BypassedLinks, Fields, SameInMemory, UnlinkAt;
      IndexOfIs(k.lists[l], t, n);
      if n < |k.lists[l]| {
        UnlinkChains(tasks, ls, links, fs, k, l, n);
      }
      UnlinkSame(k, t, l);
      FieldsSame(k, Unlink(k, t, l));
    }
  }

  /** A pointer of a task that is not in the list. */
  lemma NotOn(tasks: seq<Task>, links: seq<Task?>, after: seq<Task?>, first: Task?, q: seq<nat>, t: nat)
    requires InRange(q, |tasks|) && |links| == |tasks| && Chain(tasks, links, first, q) && t < |tasks| && t !in q
    requires |after| == |links| && after == links[t := after[t]]
    ensures Chain(tasks, after, first, q)
  {
    forall i | 0 <= i < |q| ensures after[q[i]] == links[q[i]] {
      assert q[i] in q;
    }
    ChainFrame(tasks, links, after, first, q);
  }

  /** The head of a chain. */
  lemma FirstIs(tasks: seq<Task>, links: seq<Task?>, first: Task?, q: seq<nat>)
    requires InRange(q, |tasks|) && |links| == |tasks| && Chain(tasks, links, first, q)
    ensures first == if q == [] then null else tasks[q[0]]
  {
  }

  lemma IndexOfIs(q: seq<nat>, t: nat, n: nat)
    requires n <= |q| && (forall j :: 0 <= j < n ==> q[j] != t)
    requires n < |q| ==> q[n] == t
    ensures IndexOf(q, t) == n
  {
  }
}
