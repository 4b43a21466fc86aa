/** Mutexes, semaphores, queues and event groups: their data, and the parts of their
    critical sections that also move tasks. */
module Primitives {
  import opened Selection
  import opened WaitQueue
  import opened Kernel
  import opened EventBits
  import RingBuffer

  /** One kernel object. `queued` and `since` are auxiliary: the priorities of the tasks
      that queued during the present ownership, and the enqueue count when it began.
      `given` and `taken` count effective gives and takes. */
  datatype Object =
    | Mutex(owner: Option<nat>, saved: nat, elevated: bool, queued: seq<nat>, since: nat)
    | Semaphore(count: int, max: int, given: nat, taken: nat)
    | Queue(items: seq<RingBuffer.Item>, capacity: nat)
    | Group(bits: bv32)

  // ---- mutex.c ----

  /** Takes a free mutex. */
  function Acquire(k: State, m: Object): Object
    requires m.Mutex?
  {
    m.(owner := Some(k.current), queued := [], since := k.clock)
  }

  /** Priority inheritance: the current task is about to queue behind the owner. */
  function Inherit(k: State, m: Object): (r: (State, Object))
    requires Bounds(k) && m.Mutex? && m.owner.Some? && m.owner.value < |k.tasks|
    ensures Bounds(r.0) && r.1.Mutex? && r.1.owner == m.owner
  {
    var o := m.owner.value;
    var p := k.tasks[k.current].prio;
    var q := m.(queued := m.queued + [p]);
    if p < k.tasks[o].prio then
      (SetTask(k, o, k.tasks[o].(prio := p)),
       if m.elevated then q else q.(saved := k.tasks[o].prio, elevated := true))
    else (k, q)
  }

  /** The owner gets its saved priority back. */
  function Restore(k: State, m: Object): State
    requires m.Mutex? && m.owner.Some? && m.owner.value < |k.tasks|
  {
    var o := m.owner.value;
    if m.elevated then SetTask(k, o, k.tasks[o].(prio := m.saved)) else k
  }

  function Release(m: Object): Object
    requires m.Mutex?
  {
    m.(owner := None, elevated := false)
  }

  /** `mutex_unlock` by the owner: pop, restore, free, wake. */
  function UnlockKernel(k: State, m: Object, l: nat): (r: State)
    requires Bounds(k) && m.Mutex? && m.owner.Some? && m.owner.value < |k.tasks|
    requires l < |k.lists| && InRange(k.lists[l], |k.tasks|)
    ensures SameSize(k, r)
  {
    if k.lists[l] == [] then Restore(k, m)
    else Wake(Restore(Pop(k, l), m), k.lists[l][0])
  }

  // ---- semaphore.c ----

  function TakeOne(s: Object): Object
    requires s.Semaphore?
  {
    s.(count := s.count - 1, taken := s.taken + 1)
  }

  /** `sem_give` adds a token unless the semaphore is full, whether it wakes or not. */
  function GiveOne(s: Object): Object
    requires s.Semaphore?
  {
    if s.count < s.max then s.(count := s.count + 1, given := s.given + 1) else s
  }

  /** Pops the first waiter of `l`, if any, and wakes it in the same critical section. */
  function PopWake(k: State, l: nat): (r: State)
    requires Bounds(k) && l < |k.lists| && InRange(k.lists[l], |k.tasks|)
    ensures SameSize(k, r)
  {
    if k.lists[l] == [] then k else Wake(Pop(k, l), k.lists[l][0])
  }

  // ---- event.c ----

  /** One used slot of `s_pending`. */
  datatype Entry = Entry(task: nat, group: nat, mask: bv32, mode: Mode, autoClear: bool, observed: bv32)

  /** History of an event group: flags set, and flags taken by auto-clear waiters. */
  datatype Note =
    | WasSet(group: nat, bits: bv32)
    | Consumed(group: nat, task: nat, mask: bv32, observed: bv32)

  /** `event_pending_find`: the first slot of task `t`, or `|pool|`. */
  function FindSlot(pool: seq<Option<Entry>>, t: nat): (i: nat)
    ensures i <= |pool|
    ensures i < |pool| ==> pool[i].Some? && pool[i].value.task == t
    ensures forall j :: 0 <= j < i ==> pool[j].None? || pool[j].value.task != t
  {
    if pool == [] || (pool[0].Some? && pool[0].value.task == t) then 0
    else 1 + FindSlot(pool[1..], t)
  }

  /** `event_pending_alloc`: the first free slot, or `|pool|`. */
  function FreeSlot(pool: seq<Option<Entry>>): (i: nat)
    ensures i <= |pool|
    ensures i < |pool| ==> pool[i].None?
    ensures forall j :: 0 <= j < i ==> pool[j].Some?
  {
    if pool == [] || pool[0].None? then 0 else 1 + FreeSlot(pool[1..])
  }

  datatype Swept = Swept(k: State, bits: bv32, pool: seq<Option<Entry>>, log: seq<Note>)

  /** Does the sweep wake waiter `i` of list `l`? */
  predicate Satisfied(w: Swept, l: nat, i: nat)
    requires l < |w.k.lists| && i < |w.k.lists[l]|
  {
    var p := FindSlot(w.pool, w.k.lists[l][i]);
    p < |w.pool| && Met(w.bits, w.pool[p].value.mask, w.pool[p].value.mode)
  }

  /** The sweep at waiter `i`, which is satisfied: record, clear, unlink, wake. */
  function SweepWake(w: Swept, l: nat, i: nat): (r: Swept)
    requires Shaped(w.k) && l < |w.k.lists| && i < |w.k.lists[l]| && Satisfied(w, l, i)
    ensures Shaped(r.k) && |r.k.lists| == |w.k.lists| && |r.k.tasks| == |w.k.tasks| && |r.pool| == |w.pool|
    ensures |r.k.lists[l]| == |w.k.lists[l]| - 1
  {
    var t := w.k.lists[l][i];
    var p := FindSlot(w.pool, t);
    var en := w.pool[p].value;
    var u := UnlinkAt(w.k, l, i);
    var h := SetTask(u, t, u.tasks[t].(head := None));
    Swept(
      Wake(h, t),
      if en.autoClear then Without(w.bits, en.mask) else w.bits,
      w.pool[p := Some(en.(observed := w.bits))],
      if en.autoClear then w.log + [Consumed(en.group, t, en.mask, w.bits)] else w.log)
  }

  /** `event_wake_satisfied` from waiter `i` on. */
  function Sweep(w: Swept, l: nat, i: nat): (r: Swept)
    requires Shaped(w.k) && l < |w.k.lists|
    ensures Shaped(r.k) && |r.k.lists| == |w.k.lists| && |r.k.tasks| == |w.k.tasks| && |r.pool| == |w.pool|
    decreases |w.k.lists[l]| - i
  {
    if i >= |w.k.lists[l]| then w
    else if Satisfied(w, l, i) then Sweep(SweepWake(w, l, i), l, i)
    else Sweep(w, l, i + 1)
  }
}
