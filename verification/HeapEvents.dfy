/** event.c on the heap: the pending-entry pool, the sweep that unlinks satisfied waiters
    through a pointer to a pointer, and the critical sections around it. */
module HeapEvents {
  import opened Selection
  import opened WaitQueue
  import opened Kernel
  import opened Heap
  import opened HeapScheduler
  import opened EventBits
  import opened EventSweep
  import opened Primitives

  /** `event_pending_t`. */
  datatype Slot = Slot(task: Task?, group: nat, mask: bv32, mode: Mode, autoClear: bool, observed: bv32)

  /** A new entry keeps the observed flags of its last user until the sweep writes them. */
  ghost predicate IsEntry(s: Scheduler, x: Slot, e: Entry) {
    && e.task < |s.tasks| && x.task == s.tasks[e.task]
    && x.group == e.group && x.mask == e.mask && x.mode == e.mode && x.autoClear == e.autoClear
    && (e.observed != 0 ==> x.observed == e.observed)
  }

  ghost predicate IsPool(s: Scheduler, slots: seq<Slot>, pool: seq<Option<Entry>>) {
    && |slots| == |pool|
    && forall i :: 0 <= i < |pool| ==>
         if pool[i].None? then slots[i].task == null else IsEntry(s, slots[i], pool[i].value)
  }

  lemma FindSlotIs(pool: seq<Option<Entry>>, t: nat, n: nat)
    requires n <= |pool| && forall j :: 0 <= j < n ==> pool[j].None? || pool[j].value.task != t
    requires n < |pool| ==> pool[n].Some? && pool[n].value.task == t
    ensures FindSlot(pool, t) == n
  {
  }

  lemma FreeSlotIs(pool: seq<Option<Entry>>, n: nat)
    requires n <= |pool| && forall j :: 0 <= j < n ==> pool[j].Some?
    requires n < |pool| ==> pool[n].None?
    ensures FreeSlot(pool) == n
  {
  }

  /** `event_pending_find`. */
  method PendingFind(s: Scheduler, slots: array<Slot>, ghost pool: seq<Option<Entry>>, ghost t: nat, task: Task) returns (i: nat)
    requires s.Distinguished() && IsPool(s, slots[..], pool) && t < |s.tasks| && task == s.tasks[t]
    ensures i <= slots.Length == |pool| && i == FindSlot(pool, t)
  {
    i := 0;
    while i < slots.Length
      invariant 0 <= i <= slots.Length
      invariant forall j :: 0 <= j < i ==> pool[j].None? || pool[j].value.task != t
    {
      if slots[i].task == task {
        assert pool[i].Some? && IsEntry(s, slots[i], pool[i].value);
        break;
      }
      assert pool[i].Some? ==> IsEntry(s, slots[i], pool[i].value);
      i := i + 1;
    }
    FindSlotIs(pool, t, i);
  }

  /** The search of `event_pending_alloc`. */
  method PendingFree(s: Scheduler, slots: array<Slot>, ghost pool: seq<Option<Entry>>) returns (i: nat)
    requires IsPool(s, slots[..], pool)
    ensures i <= slots.Length == |pool| && i == FreeSlot(pool)
  {
    i := 0;
    while i < slots.Length
      invariant 0 <= i <= slots.Length
      invariant forall j :: 0 <= j < i ==> pool[j].Some?
    {
      if slots[i].task == null {
        break;
      }
      i := i + 1;
    }
    FreeSlotIs(pool, i);
  }

  /** Where the pointer-to-pointer `cur` is: the list head, or a task's `wait_next`. */
  ghost predicate At(s: Scheduler, prev: Task?, l: nat, i: nat)
    reads s
  {
    && l < |s.k.lists| && i <= |s.k.lists[l]|
    && if i == 0 then prev == null
       else s.k.lists[l][i - 1] < |s.tasks| && prev == s.tasks[s.k.lists[l][i - 1]]
  }

  /** `*cur`. */
  method Deref(s: Scheduler, head: WaitList, ghost l: nat, prev: Task?, ghost i: nat) returns (task: Task?)
    requires s.Valid() && l < |s.lists| && head == s.lists[l] && At(s, prev, l, i)
    ensures i <= |s.k.lists[l]|
    ensures if i == |s.k.lists[l]| then task == null
            else s.k.lists[l][i] < Idle(s.k) && s.k.lists[l][i] < |s.tasks| && task == s.tasks[s.k.lists[l][i]]
                 && s.k.tasks[s.k.lists[l][i]].on == Some(l)
  {
    task := if prev == null then head.first else prev.waitNext;
    assert ListOk(s.k, l);
    assert Chain(s.tasks, s.links, s.firsts[l], s.k.lists[l]);
    if i > 0 {
      assert s.links[s.k.lists[l][i - 1]] == Node(s.tasks, s.k.lists[l], i);
    }
  }

  /** `*cur = t->wait_next`: entry `i` leaves list `l`. */
  method UnlinkHere(s: Scheduler, head: WaitList, ghost l: nat, prev: Task?, ghost i: nat, task: Task)
    requires s.Valid() && l < |s.lists| && head == s.lists[l] && At(s, prev, l, i)
    requires i < |s.k.lists[l]| && s.k.lists[l][i] < |s.tasks| && task == s.tasks[s.k.lists[l][i]]
    modifies s`k, s`links, s`firsts, s.nodes`waitNext, s.cells`first
    ensures s.Valid() && l < |old(s.k).lists| && i < |old(s.k).lists[l]| && old(s.k).lists[l][i] < |old(s.k).tasks|
    ensures s.k == UnlinkAt(old(s.k), l, i)
  {
    hide *;
    s.Disassemble(l);
    ghost var ls, fs, q := s.links, s.firsts, s.k.lists[l];
    InRangeAt(q, |s.tasks|, i);
    NextOf(s, q[i], task);
    PrevOf(s, prev, l, i);
    if prev == null {
      s.SetFirst(head, l, task.waitNext);
    } else {
      s.SetNext(q[i - 1], prev, task.waitNext);
    }
    BypassedHere(s, ls, fs, l, i);
    s.k := UnlinkAt(s.k, l, i);
    s.Assemble();
  }

  lemma InRangeAt(q: seq<nat>, n: nat, i: nat)
    requires InRange(q, n) && i < |q|
    ensures q[i] < n
  {
  }

  lemma NextOf(s: Scheduler, t: nat, task: Task)
    requires s.Mirrored() && t < |s.tasks| && task == s.tasks[t]
    ensures |s.links| == |s.tasks| && s.links[t] == task.waitNext
  {
  }

  lemma PrevOf(s: Scheduler, prev: Task?, l: nat, i: nat)
    requires At(s, prev, l, i)
    ensures l < |s.k.lists| && i <= |s.k.lists[l]|
    ensures i == 0 <==> prev == null
    ensures i > 0 ==> s.k.lists[l][i - 1] < |s.tasks| && prev == s.tasks[s.k.lists[l][i - 1]]
  {
  }

  lemma BypassedHere(s: Scheduler, ls: seq<Task?>, fs: seq<Task?>, l: nat, i: nat)
    requires l < |s.k.lists| && |s.k.tasks| == |ls| == |s.tasks| && |fs| == |s.lists| == |s.k.lists|
    requires Chains(s.tasks, ls, fs, s.k) && s.Fields(s.k)
    requires InRange(s.k.lists[l], |s.tasks|) && i < |s.k.lists[l]|
    requires var q := s.k.lists[l];
      if i == 0 then s.links == ls && s.firsts == fs[l := ls[q[0]]]
      else s.links == ls[q[i - 1] := ls[q[i]]] && s.firsts == fs
    ensures s.k.lists[l][i] < |s.k.tasks|
    ensures Chains(s.tasks, s.links, s.firsts, UnlinkAt(s.k, l, i)) && s.Fields(UnlinkAt(s.k, l, i))
  {
    hide Chains, s.Fields, UnlinkAt;
    assert i > 0 ==> fs == fs[l := fs[l]];
    UnlinkChains(s.tasks, ls, s.links, fs, s.k, l, i);
    UnlinkAtSame(s.k, l, i);
    s.FieldsSame(s.k, UnlinkAt(s.k, l, i));
  }

  lemma UnlinkAtSame(k: State, l: nat, i: nat)
    requires l < |k.lists| && i < |k.lists[l]| && k.lists[l][i] < |k.tasks|
    ensures SameInMemory(k, UnlinkAt(k, l, i))
  {
  }

  // ---- The sweep ----

  class EventGroup {
    const waiters: WaitList
    var bits: bv32

    /** `event_init`. */
    constructor (head: WaitList)
      ensures waiters == head && bits == 0
    {
      waiters, bits := head, 0;
    }

    /** What the sweep works on, as a value. */
    ghost function Stage(s: Scheduler, pool: seq<Option<Entry>>, log: seq<Note>): Swept
      reads this, s
    {
      Swept(s.k, bits, pool, log)
    }

    /** `observed_bits`, and the flags that an auto-clear waiter takes. */
    method Record(s: Scheduler, slots: array<Slot>, ghost pool: seq<Option<Entry>>, p: nat) returns (ghost after: seq<Option<Entry>>)
      requires IsPool(s, slots[..], pool) && p < |pool| && pool[p].Some?
      modifies this`bits, slots
      ensures after == pool[p := Some(pool[p].value.(observed := old(bits)))] && IsPool(s, slots[..], after)
      ensures bits == if pool[p].value.autoClear then Without(old(bits), pool[p].value.mask) else old(bits)
    {
      hide Without, IsPool;
      PoolSize(s, slots[..], pool);
      EntryAt(s, slots[..], pool, p);
      after := pool[p := Some(pool[p].value.(observed := bits))];
      PoolObserved(s, slots[..], pool, p, bits);
      ghost var was := slots[..];
      slots[p] := slots[p].(observed := bits);
      assert slots[..] == was[p := was[p].(observed := bits)];
      if slots[p].autoClear {
        bits := Without(bits, slots[p].mask);
      }
    }

    /** One satisfied waiter: record, clear, unlink, wake. */
    method WakeOne(s: Scheduler, slots: array<Slot>, ghost w: Swept, ghost l: nat, prev: Task?, ghost i: nat, task: Task, p: nat)
      returns (ghost r: Swept)
      requires s.Valid() && Shaped(s.k) && w == Stage(s, w.pool, w.log) && IsPool(s, slots[..], w.pool)
      requires l < |s.lists| && waiters == s.lists[l] && At(s, prev, l, i)
      requires l < |s.k.lists| && i < |s.k.lists[l]| && s.k.lists[l][i] < |s.tasks| && task == s.tasks[s.k.lists[l][i]]
      requires s.k.lists[l][i] < Idle(s.k) && p == FindSlot(w.pool, s.k.lists[l][i]) && p < slots.Length
      requires Satisfied(w, l, i)
      modifies this`bits, slots, s`k, s`next, s`links, s`firsts, s.nodes, s.cells`first
      ensures s.Valid() && r == SweepWake(w, l, i) && r == Stage(s, r.pool, r.log) && IsPool(s, slots[..], r.pool)
      ensures At(s, prev, l, i)
    {
      hide s.Valid, Shaped, UnlinkAt, SetTask, Wake, Met, Without, IsPool;
      ghost var t, e := s.k.lists[l][i], w.pool[p].value;
      PoolSize(s, slots[..], w.pool);
      ghost var pool := Record(s, slots, w.pool, p);
      LetGo(s, waiters, l, prev, i, task);
      r := Swept(s.k, bits, pool, if e.autoClear then w.log + [Consumed(e.group, t, e.mask, w.bits)] else w.log);
    }

    /** Is the waiter's condition met? Returns its pool slot. */
    method Check(s: Scheduler, slots: array<Slot>, ghost w: Swept, ghost l: nat, ghost i: nat, task: Task) returns (p: nat, met: bool)
      requires s.Distinguished() && w.bits == bits && IsPool(s, slots[..], w.pool)
      requires l < |w.k.lists| && i < |w.k.lists[l]| && w.k.lists[l][i] < |s.tasks| && task == s.tasks[w.k.lists[l][i]]
      ensures p == FindSlot(w.pool, w.k.lists[l][i]) && met == Satisfied(w, l, i) && (met ==> p < slots.Length)
    {
      hide s.Distinguished, Met, IsPool;
      p := PendingFind(s, slots, w.pool, w.k.lists[l][i], task);
      met := false;
      if p < slots.Length {
        EntryAt(s, slots[..], w.pool, p);
        met := Met(bits, slots[p].mask, slots[p].mode);
      }
    }

    /** The sweep has come to waiter `i`. */
    ghost predicate Sweeping(s: Scheduler, slots: array<Slot>, r: Swept, l: nat, prev: Task?, i: nat)
      reads this, s, s.nodes, s.cells, slots
    {
      && s.Valid() && Shaped(s.k) && r == Stage(s, r.pool, r.log) && IsPool(s, slots[..], r.pool)
      && l < |s.lists| && l < |r.k.lists| && waiters == s.lists[l] && At(s, prev, l, i)
    }

    /** One turn of the loop: waiter `i` is woken, or passed over. */
    method Turn(s: Scheduler, slots: array<Slot>, ghost w: Swept, ghost l: nat, prev: Task?, ghost i: nat, task: Task)
      returns (ghost r: Swept, next: Task?, ghost n: nat)
      requires Sweeping(s, slots, w, l, prev, i)
      requires i < |w.k.lists[l]| && w.k.lists[l][i] < Idle(w.k) && w.k.lists[l][i] < |s.tasks| && task == s.tasks[w.k.lists[l][i]]
      modifies this`bits, slots, s`k, s`next, s`links, s`firsts, s.nodes, s.cells`first
      ensures Sweeping(s, slots, r, l, next, n)
      ensures Shaped(w.k) && Sweep(w, l, i) == Sweep(r, l, n)
      ensures |r.k.lists[l]| - n < |w.k.lists[l]| - i
    {
      hide s.Valid, Shaped, SweepWake, Satisfied, IsPool, s.Distinguished, Sweep;
      Parts(s);
      var p, met := Check(s, slots, w, l, i, task);
      if met {
        SweepWakes(w, l, i);
        r := WakeOne(s, slots, w, l, prev, i, task, p);
        Globals(s);
        next, n := prev, i;
      } else {
        SweepSkips(w, l, i);
        r, next, n := w, task, i + 1;
      }
    }

    /** `event_wake_satisfied`. */
    method WakeSatisfied(s: Scheduler, slots: array<Slot>, ghost pool: seq<Option<Entry>>, ghost log: seq<Note>, ghost l: nat)
      returns (ghost r: Swept)
      requires s.Valid() && l < |s.lists| && waiters == s.lists[l] && IsPool(s, slots[..], pool)
      modifies this`bits, slots, s`k, s`next, s`links, s`firsts, s.nodes, s.cells`first
      ensures s.Valid() && Shaped(old(s.k)) && l < |old(s.k).lists|
      ensures r == Sweep(Swept(old(s.k), old(bits), pool, log), l, 0)
      ensures r == Stage(s, r.pool, r.log) && IsPool(s, slots[..], r.pool)
    {
      hide s.Valid, Shaped, IsPool, Sweep;
      Globals(s);
      r := Stage(s, pool, log);
      ghost var start := r;
      ghost var i: nat := 0;
      var prev: Task? := null;
      var task := Deref(s, waiters, l, prev, i);
      while task != null
        invariant Sweeping(s, slots, r, l, prev, i) && Sweep(start, l, 0) == Sweep(r, l, i)
        invariant if i == |r.k.lists[l]| then task == null
                  else r.k.lists[l][i] < Idle(r.k) && r.k.lists[l][i] < |s.tasks| && task == s.tasks[r.k.lists[l][i]]
        decreases |r.k.lists[l]| - i
      {
        r, prev, i := Turn(s, slots, r, l, prev, i, task);
        task := Deref(s, waiters, l, prev, i);
      }
      SweepEnds(r, l, i);
    }

    /** `event_set`. */
    method Set(s: Scheduler, slots: array<Slot>, flags: bv32, ghost pool: seq<Option<Entry>>, ghost log: seq<Note>, ghost l: nat)
      returns (ghost r: Swept)
      requires s.Valid() && l < |s.lists| && waiters == s.lists[l] && IsPool(s, slots[..], pool)
      modifies this`bits, slots, s`k, s`next, s`links, s`firsts, s.nodes, s.cells`first
      ensures s.Valid() && Shaped(old(s.k)) && l < |old(s.k).lists|
      ensures r == Sweep(Swept(old(s.k), With(old(bits), flags), pool, log), l, 0)
      ensures r == Stage(s, r.pool, r.log) && IsPool(s, slots[..], r.pool)
      ensures forall b: bv32 :: IsBit(b) ==>
        (Has(bits, b) <==> (Has(old(bits), b) || Has(flags, b)) && !TakenSince(r.log, |log|, b))
    {
      hide s.Valid, Shaped, Sweep, With, IsPool, Has, IsBit, TakenSince;
      ghost var was := bits;
      bits := With(bits, flags);
      ghost var w := Swept(s.k, bits, pool, log);
      r := WakeSatisfied(s, slots, pool, log, l);
      forall b: bv32 | IsBit(b)
        ensures Has(bits, b) <==> (Has(was, b) || Has(flags, b)) && !TakenSince(r.log, |log|, b)
      {
        WithFlags(was, flags, b);
        SweepTakes(w, l, 0, b);
      }
    }

    /** `event_clear`. */
    method Clear(flags: bv32)
      modifies this`bits
      ensures forall b: bv32 :: IsBit(b) ==> (Has(bits, b) <==> Has(old(bits), b) && !Has(flags, b))
    {
      hide Has, IsBit, Without;
      ghost var was := bits;
      bits := Without(bits, flags);
      forall b: bv32 | IsBit(b) ensures Has(bits, b) <==> Has(was, b) && !Has(flags, b) {
        WithoutFlags(was, flags, b);
      }
    }

    /** One turn of `event_wait`, or of `event_wait_timeout` when `timeout` is given: return
        the flags, find the pool full, give up, or take a slot and block. */
    method WaitSection(s: Scheduler, slots: array<Slot>, group: nat, mask: bv32, mode: Mode, autoClear: bool,
                       timeout: Option<nat>, ghost pool: seq<Option<Entry>>, ghost l: nat)
      returns (result: Waited, ghost after: seq<Option<Entry>>)
      requires MayBlock(s) && l < |s.lists| && waiters == s.lists[l] && IsPool(s, slots[..], pool)
      modifies this`bits, slots, s`k, s`next, s`links, s`firsts, s.nodes, s.cells`first
      ensures s.Valid() && Shaped(old(s.k)) && l < |old(s.k).lists| && IsPool(s, slots[..], after)
      ensures Wanted(old(bits), mask, mode) ==>
        && result == Observed(old(bits)) && s.k == old(s.k) && after == pool
        && bits == if autoClear then Without(old(bits), mask) else old(bits)
      ensures !Wanted(old(bits), mask, mode) ==> bits == old(bits)
      ensures !Wanted(old(bits), mask, mode) && timeout == Some(0) ==> result == TimedOut && s.k == old(s.k) && after == pool
      ensures !Wanted(old(bits), mask, mode) && timeout != Some(0) ==>
        var i := FreeSlot(pool);
        if i == |pool| then result == PoolFull && s.k == old(s.k) && after == pool
        else
          && result == Asleep(i)
          && s.k == Block(old(s.k), l, if timeout.Some? then Timed(timeout.value) else NoHead)
          && after == pool[i := Some(Entry(old(s.k).current, group, mask, mode, autoClear, 0))]
    {
      hide s.Valid, Shaped, Block, Met, Wanted, Without, IsPool;
      MetIsWanted(bits, mask, mode);
      Globals(s);
      PoolSize(s, slots[..], pool);
      after := pool;
      if Met(bits, mask, mode) {
        result := Observed(bits);
        if autoClear {
          bits := Without(bits, mask);
        }
        return;
      }
      if timeout == Some(0) {
        return TimedOut, pool;
      }
      var i := PendingFree(s, slots, pool);
      if i == slots.Length {
        return PoolFull, pool;
      }
      ghost var was := slots[..];
      slots[i] := slots[i].(task := s.current, group := group, mask := mask, mode := mode, autoClear := autoClear);
      after := pool[i := Some(Entry(s.k.current, group, mask, mode, autoClear, 0))];
      assert slots[..] == was[i := was[i].(task := s.current, group := group, mask := mask, mode := mode, autoClear := autoClear)];
      PoolTaken(s, was, pool, i, s.k.current, group, mask, mode, autoClear);
      if timeout.Some? {
        BlockTimed(s, waiters, l, timeout.value);
      } else {
        BlockHeadless(s, waiters, l);
      }
      result := Asleep(i);
    }
  }

  /** A task that slept in `event_wait` or `event_wait_timeout` runs again: its slot is freed,
      and it returns the observed flags unless it timed out. */
  method Collect(s: Scheduler, slots: array<Slot>, i: nat, timed: bool, ghost pool: seq<Option<Entry>>)
    returns (result: Waited, ghost after: seq<Option<Entry>>)
    requires s.Valid() && IsPool(s, slots[..], pool) && i < |pool| && pool[i].Some?
    modifies slots, s`k, s.nodes`timedOut, s.nodes`waitListHead
    ensures s.Valid() && after == pool[i := None] && IsPool(s, slots[..], after) && Bounds(old(s.k))
    ensures var c := old(s.k).current;
      if timed && old(s.k).tasks[c].timedOut
      then result == TimedOut && s.k == SetTask(old(s.k), c, old(s.k).tasks[c].(timedOut := false, head := None))
      else result.Observed? && s.k == old(s.k)
           && (pool[i].value.observed != 0 ==> result == Observed(pool[i].value.observed))
  {
    hide s.Valid, IsPool, SetTask;
    Globals(s);
    PoolSize(s, slots[..], pool);
    EntryAt(s, slots[..], pool, i);
    PoolFreed(s, slots[..], pool, i);
    after := pool[i := None];
    var late := false;
    if timed {
      late := TakeTimeout(s);
    }
    result := if late then TimedOut else Observed(slots[i].observed);
    ghost var was := slots[..];
    slots[i] := slots[i].(task := null);
    assert slots[..] == was[i := was[i].(task := null)];
  }

  lemma PoolFreed(s: Scheduler, slots: seq<Slot>, pool: seq<Option<Entry>>, i: nat)
    requires IsPool(s, slots, pool) && i < |pool|
    ensures IsPool(s, slots[i := slots[i].(task := null)], pool[i := None])
  {
  }

  datatype Waited = Observed(bits: bv32) | TimedOut | PoolFull | Asleep(slot: nat)

  lemma PoolTaken(s: Scheduler, slots: seq<Slot>, pool: seq<Option<Entry>>, i: nat, c: nat,
                  group: nat, mask: bv32, mode: Mode, autoClear: bool)
    requires IsPool(s, slots, pool) && i < |pool| && c < |s.tasks|
    ensures IsPool(s, slots[i := slots[i].(task := s.tasks[c], group := group, mask := mask, mode := mode, autoClear := autoClear)],
                   pool[i := Some(Entry(c, group, mask, mode, autoClear, 0))])
  {
  }

  lemma SweepWakes(w: Swept, l: nat, i: nat)
    requires Shaped(w.k) && l < |w.k.lists| && i < |w.k.lists[l]| && Satisfied(w, l, i)
    ensures Sweep(w, l, i) == Sweep(SweepWake(w, l, i), l, i)
  {
  }

  lemma SweepSkips(w: Swept, l: nat, i: nat)
    requires Shaped(w.k) && l < |w.k.lists| && i < |w.k.lists[l]| && !Satisfied(w, l, i)
    ensures Sweep(w, l, i) == Sweep(w, l, i + 1)
  {
  }

  lemma SweepEnds(w: Swept, l: nat, i: nat)
    requires Shaped(w.k) && l < |w.k.lists| && i >= |w.k.lists[l]|
    ensures Sweep(w, l, i) == w
  {
  }

  lemma PoolSize(s: Scheduler, slots: seq<Slot>, pool: seq<Option<Entry>>)
    requires IsPool(s, slots, pool)
    ensures |slots| == |pool|
  {
  }

  /** Unlink entry `i`, clear its list head, wake it. */
  method LetGo(s: Scheduler, head: WaitList, ghost l: nat, prev: Task?, ghost i: nat, task: Task)
    requires s.Valid() && Shaped(s.k) && l < |s.lists| && head == s.lists[l] && At(s, prev, l, i)
    requires l < |s.k.lists| && i < |s.k.lists[l]| && s.k.lists[l][i] < |s.tasks| && task == s.tasks[s.k.lists[l][i]]
    requires s.k.lists[l][i] < Idle(s.k)
    modifies s`k, s`next, s`links, s`firsts, s.nodes, s.cells`first
    ensures s.Valid() && At(s, prev, l, i)
    ensures l < |old(s.k).lists| && i < |old(s.k).lists[l]| && old(s.k).lists[l][i] < |old(s.k).tasks| && Bounds(old(s.k))
    ensures var t, u := old(s.k).lists[l][i], UnlinkAt(old(s.k), l, i);
      |u.tasks| == |old(s.k).tasks| && Bounds(u) && s.k == Wake(SetTask(u, t, u.tasks[t].(head := None)), t)
  {
    hide s.Valid, Shaped, UnlinkAt, SetTask, Wake;
    Globals(s);
    ghost var k, t := s.k, s.k.lists[l][i];
    Unlinked(k, l, i);
    UnlinkHere(s, head, l, prev, i, task);
    ghost var u := s.k;
    ClearNext(s, t, task);
    WriteHead(s, t, task, null, None);
    SetAt(u, t, u.tasks[t].(head := None));
    SetKeeps(u, t, u.tasks[t].(head := None));
    WakeTask(s, t, task);
    WakeKeepsLists(SetTask(u, t, u.tasks[t].(head := None)), t);
    assert i > 0 ==> u.lists[l][..i][i - 1] == k.lists[l][..i][i - 1];
  }

  lemma EntryAt(s: Scheduler, slots: seq<Slot>, pool: seq<Option<Entry>>, p: nat)
    requires IsPool(s, slots, pool) && p < |pool| && pool[p].Some?
    ensures slots[p].autoClear == pool[p].value.autoClear && slots[p].mask == pool[p].value.mask
    ensures slots[p].mode == pool[p].value.mode
    ensures pool[p].value.observed != 0 ==> slots[p].observed == pool[p].value.observed
  {
    assert IsEntry(s, slots[p], pool[p].value);
  }

  lemma PoolObserved(s: Scheduler, slots: seq<Slot>, pool: seq<Option<Entry>>, p: nat, bits: bv32)
    requires IsPool(s, slots, pool) && p < |pool| && pool[p].Some?
    ensures IsPool(s, slots[p := slots[p].(observed := bits)], pool[p := Some(pool[p].value.(observed := bits))])
  {
    assert IsEntry(s, slots[p], pool[p].value);
  }

  /** The task taken out of the list is on none, and the entries before it stay. */
  lemma Unlinked(k: State, l: nat, i: nat)
    requires Shaped(k) && l < |k.lists| && i < |k.lists[l]|
    ensures k.lists[l][i] < |k.tasks|
    ensures var u := UnlinkAt(k, l, i);
      && |u.tasks| == |k.tasks| && u.tasks[k.lists[l][i]].on.None? && |u.lists| == |k.lists| && Bounds(u)
      && |u.lists[l]| == |k.lists[l]| - 1 && u.lists[l][..i] == k.lists[l][..i]
  {
  }

  lemma WakeKeepsLists(k: State, t: nat)
    requires Bounds(k) && t < |k.tasks|
    ensures Wake(k, t).lists == k.lists
  {
  }
}
