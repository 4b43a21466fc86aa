/** The critical sections of mutex.c, semaphore.c and queue.c on the heap. */
module HeapPrimitives {
  import opened Selection
  import opened Kernel
  import opened Heap
  import opened HeapScheduler
  import P = Primitives
  import RingBuffer

  /** Pointer `p` is task number `i`. */
  ghost predicate Names(s: Scheduler, p: Task?, i: Option<nat>) {
    if i.None? then p == null else i.value < |s.tasks| && p == s.tasks[i.value]
  }

  // ---- Popping and waking ----

  /** A popped task can be woken. */
  lemma PoppedIsFree(s: Scheduler, l: nat)
    requires s.Valid() && l < |s.k.lists| && s.k.lists[l] != []
    ensures var w := s.k.lists[l][0];
      w < |s.k.tasks| && w < Idle(s.k) && Pop(s.k, l).tasks[w].on.None? && |Pop(s.k, l).tasks| == |s.k.tasks|
  {
    assert ListOk(s.k, l);
  }

  /** Pop a waiter and wake it in the same critical section. */
  method PopAndWake(s: Scheduler, head: WaitList, ghost l: nat) returns (woken: bool)
    requires s.Valid() && l < |s.lists| && head == s.lists[l]
    modifies s`k, s`next, s`links, s`firsts, s.nodes`waitNext, s.nodes`delay, s.nodes`state, s.cells`first
    ensures s.Valid() && Shaped(old(s.k)) && l < |old(s.k).lists|
    ensures woken == (old(s.k).lists[l] != []) && s.k == P.PopWake(old(s.k), l)
  {
    hide s.Valid, Pop, Wake;
    Globals(s);
    ghost var k := s.k;
    if k.lists[l] != [] {
      PoppedIsFree(s, l);
    }
    var waiter := s.WqPop(head, l);
    woken := waiter != null;
    if waiter != null {
      WakeTask(s, k.lists[l][0], waiter);
    }
  }

  // ---- mutex.c ----

  class Mutex {
    const waiters: WaitList
    var owner: Task?
    var saved: nat
    var elevated: bool
    ghost var o: P.Object

    ghost predicate Is(s: Scheduler, l: nat)
      reads this
    {
      && o.Mutex? && l < |s.lists| && waiters == s.lists[l]
      && Names(s, owner, o.owner) && saved == o.saved && elevated == o.elevated
    }

    /** `mutex_init`. */
    constructor (s: Scheduler, head: WaitList, ghost l: nat)
      requires l < |s.lists| && head == s.lists[l]
      ensures Is(s, l) && o == P.Mutex(None, 0, false, [], 0)
    {
      waiters, owner, saved, elevated := head, null, 0, false;
      o := P.Mutex(None, 0, false, [], 0);
    }

    /** `mutex_try_acquire`. */
    method TryAcquire(s: Scheduler, ghost l: nat) returns (ok: bool)
      requires s.Valid() && Is(s, l)
      modifies this
      ensures Is(s, l) && old(o).Mutex? && ok == old(o).owner.None?
      ensures o == if ok then P.Acquire(s.k, old(o)) else old(o)
    {
      Globals(s);
      ok := owner == null;
      if ok {
        owner := s.current;
        o := P.Acquire(s.k, o);
      }
    }

    /** Priority inheritance, before the current task queues behind the owner. */
    method Inherit(s: Scheduler, ghost l: nat)
      requires s.Valid() && Is(s, l) && o.owner.Some?
      modifies this, s`k, s.nodes`prio
      ensures s.Valid() && Is(s, l) && Bounds(old(s.k))
      ensures old(o).Mutex? && old(o).owner.Some? && old(o).owner.value < |old(s.k).tasks|
      ensures (s.k, o) == P.Inherit(old(s.k), old(o))
    {
      hide s.Valid;
      Globals(s);
      ghost var i := o.owner.value;
      ReadTcb(s, s.k.current);
      ReadTcb(s, i);
      ghost var m := P.Inherit(s.k, o).1;
      if s.current.prio < owner.prio {
        if !elevated {
          saved := owner.prio;
          elevated := true;
        }
        WritePrio(s, i, owner, s.current.prio);
      }
      o := m;
    }

    /** The second critical section of `mutex_lock` when the mutex is still taken. */
    method LockSlow(s: Scheduler, ghost l: nat)
      requires MayBlock(s) && Is(s, l) && o.owner.Some?
      modifies this, s`k, s`next, s`links, s`firsts, s.nodes, s.cells`first
      ensures s.Valid() && Is(s, l) && Shaped(old(s.k)) && l < |old(s.k).lists|
      ensures old(o).Mutex? && old(o).owner.Some? && old(o).owner.value < |old(s.k).tasks|
      ensures var (k, m) := P.Inherit(old(s.k), old(o)); s.k == Block(k, l, Untimed) && o == m
    {
      hide s.Valid, Block;
      Globals(s);
      Inherit(s, l);
      Globals(s);
      BlockUntimed(s, waiters, l);
    }

    /** The same of `mutex_lock_timeout`. */
    method LockSlowTimed(s: Scheduler, ghost l: nat, remaining: nat)
      requires MayBlock(s) && Is(s, l) && o.owner.Some?
      modifies this, s`k, s`next, s`links, s`firsts, s.nodes, s.cells`first
      ensures s.Valid() && Is(s, l) && Shaped(old(s.k)) && l < |old(s.k).lists|
      ensures old(o).Mutex? && old(o).owner.Some? && old(o).owner.value < |old(s.k).tasks|
      ensures var (k, m) := P.Inherit(old(s.k), old(o)); s.k == Block(k, l, Timed(remaining)) && o == m
    {
      hide s.Valid, Block;
      Globals(s);
      Inherit(s, l);
      Globals(s);
      BlockTimed(s, waiters, l, remaining);
    }

    /** `mutex_unlock`: nothing happens unless the current task is the owner. */
    method Unlock(s: Scheduler, ghost l: nat)
      requires s.Valid() && Is(s, l)
      requires o.owner.Some? ==> o.owner.value < |s.k.tasks| && s.k.tasks[o.owner.value].on.None?
      modifies this, s`k, s`next, s`links, s`firsts, s.nodes, s.cells`first
      ensures s.Valid() && Is(s, l) && old(o).Mutex? && Shaped(old(s.k)) && l < |old(s.k).lists|
      ensures old(o).owner != Some(old(s.k).current) ==> s.k == old(s.k) && o == old(o)
      ensures old(o).owner == Some(old(s.k).current) ==>
        s.k == P.UnlockKernel(old(s.k), old(o), l) && o == P.Release(old(o))
    {
      hide s.Valid, Pop, Wake;
      Globals(s);
      if owner != s.current {
        return;
      }
      ghost var k, i := s.k, s.k.current;
      if k.lists[l] != [] {
        PoppedIsFree(s, l);
        RestoreAfterPop(k, o, l);
      }
      var waiter := s.WqPop(waiters, l);
      Globals(s);
      if elevated {
        WritePrio(s, i, owner, saved);
        elevated := false;
      }
      owner := null;
      o := P.Release(o);
      if waiter != null {
        WakeTask(s, k.lists[l][0], waiter);
      }
    }
  }

  /** Giving the owner its priority back does not put the popped task on a list. */
  lemma RestoreAfterPop(k: State, m: P.Object, l: nat)
    requires Shaped(k) && l < |k.lists| && k.lists[l] != [] && k.lists[l][0] < |k.tasks|
    requires m.Mutex? && m.owner.Some? && m.owner.value < |k.tasks| && k.tasks[m.owner.value].on.None?
    ensures |Pop(k, l).tasks| == |k.tasks| && P.Restore(Pop(k, l), m).tasks[k.lists[l][0]].on.None?
    ensures |P.Restore(Pop(k, l), m).tasks| == |k.tasks|
  {
  }

  // ---- semaphore.c ----

  class Semaphore {
    const waiters: WaitList
    var count: int
    const max: int
    ghost var o: P.Object

    ghost predicate Is(s: Scheduler, l: nat)
      reads this
    {
      o.Semaphore? && l < |s.lists| && waiters == s.lists[l] && count == o.count && max == o.max
    }

    /** `sem_init`. */
    constructor (s: Scheduler, head: WaitList, ghost l: nat, initial: int, limit: int)
      requires l < |s.lists| && head == s.lists[l]
      ensures Is(s, l) && o == P.Semaphore(initial, limit, 0, 0)
    {
      waiters, count, max := head, initial, limit;
      o := P.Semaphore(initial, limit, 0, 0);
    }

    /** `sem_trytake`, and the first branch of `sem_take`. */
    method TryTake(s: Scheduler, ghost l: nat) returns (ok: bool)
      requires Is(s, l)
      modifies this
      ensures Is(s, l) && old(o).Semaphore? && ok == (old(o).count > 0)
      ensures o == if ok then P.TakeOne(old(o)) else old(o)
    {
      ok := count > 0;
      if ok {
        count := count - 1;
        o := P.TakeOne(o);
      }
    }

    /** One turn of the loop of `sem_take`. */
    method TakeOrBlock(s: Scheduler, ghost l: nat) returns (ok: bool)
      requires MayBlock(s) && Is(s, l)
      modifies this, s`k, s`next, s`links, s`firsts, s.nodes`waitNext, s.nodes`state, s.cells`first
      ensures s.Valid() && Is(s, l) && old(o).Semaphore? && ok == (old(o).count > 0)
      ensures Shaped(old(s.k)) && l < |old(s.k).lists|
      ensures if ok then o == P.TakeOne(old(o)) && s.k == old(s.k) else o == old(o) && s.k == Block(old(s.k), l, Untimed)
    {
      hide s.Valid, Block;
      Globals(s);
      ok := TryTake(s, l);
      if !ok {
        BlockUntimed(s, waiters, l);
      }
    }

    /** `sem_give`: one token more unless it is full, and the first waiter woken. */
    method Give(s: Scheduler, ghost l: nat)
      requires s.Valid() && Is(s, l)
      modifies this, s`k, s`next, s`links, s`firsts, s.nodes`waitNext, s.nodes`delay, s.nodes`state, s.cells`first
      ensures s.Valid() && Is(s, l) && old(o).Semaphore? && Shaped(old(s.k)) && l < |old(s.k).lists|
      ensures o == P.GiveOne(old(o)) && s.k == P.PopWake(old(s.k), l)
    {
      hide s.Valid, Pop, Wake;
      Globals(s);
      ghost var k := s.k;
      if k.lists[l] != [] {
        PoppedIsFree(s, l);
      }
      var waiter := s.WqPop(waiters, l);
      if waiter != null {
        if count < max {
          count := count + 1;
        }
        WakeTask(s, k.lists[l][0], waiter);
      } else if count < max {
        count := count + 1;
      }
      o := P.GiveOne(o);
    }
  }

  // ---- queue.c ----

  class Queue {
    const ring: RingBuffer.Ring
    const senders: WaitList
    const receivers: WaitList

    ghost predicate Is(s: Scheduler, ls: nat, lr: nat) {
      ls < |s.lists| && senders == s.lists[ls] && lr < |s.lists| && receivers == s.lists[lr]
    }

    constructor (s: Scheduler, r: RingBuffer.Ring, hs: WaitList, ghost ls: nat, hr: WaitList, ghost lr: nat)
      requires ls < |s.lists| && hs == s.lists[ls] && lr < |s.lists| && hr == s.lists[lr]
      ensures Is(s, ls, lr) && ring == r
    {
      ring, senders, receivers := r, hs, hr;
    }

    /** The critical section of a send: a full queue is left alone, otherwise the item goes in
        and the first receiver comes off its list, to be woken later. */
    method SendSection(s: Scheduler, item: RingBuffer.Item, ghost ls: nat, ghost lr: nat) returns (ok: bool, waiter: Task?)
      requires s.Valid() && Is(s, ls, lr) && ring.Valid() && |item| == ring.itemSize
      modifies ring, ring.buffer, s`k, s`firsts, s.cells`first
      ensures s.Valid() && ring.Valid() && ok == (|old(ring.Contents())| < ring.capacity)
      ensures ring.Contents() == old(ring.Contents()) + if ok then [item] else []
      ensures Shaped(old(s.k)) && lr < |old(s.k).lists|
      ensures if !ok || old(s.k).lists[lr] == [] then waiter == null && s.k == old(s.k)
              else old(s.k).lists[lr][0] < |s.tasks| && waiter == s.tasks[old(s.k).lists[lr][0]] && s.k == Pop(old(s.k), lr)
    {
      hide s.Valid, Pop;
      Globals(s);
      waiter := null;
      ok := ring.TrySend(item);
      if ok {
        waiter := s.WqPop(receivers, lr);
      }
    }

    /** The critical section of a receive. */
    method ReceiveSection(s: Scheduler, ghost ls: nat, ghost lr: nat)
      returns (ok: bool, item: RingBuffer.Item, waiter: Task?)
      requires s.Valid() && Is(s, ls, lr) && ring.Valid()
      modifies ring, s`k, s`firsts, s.cells`first
      ensures s.Valid() && ring.Valid() && ok == (old(ring.Contents()) != [])
      ensures old(ring.Contents()) == (if ok then [item] else []) + ring.Contents()
      ensures Shaped(old(s.k)) && ls < |old(s.k).lists|
      ensures if !ok || old(s.k).lists[ls] == [] then waiter == null && s.k == old(s.k)
              else old(s.k).lists[ls][0] < |s.tasks| && waiter == s.tasks[old(s.k).lists[ls][0]] && s.k == Pop(old(s.k), ls)
    {
      hide s.Valid, Pop;
      Globals(s);
      waiter := null;
      ok, item := ring.TryReceive();
      if ok {
        waiter := s.WqPop(senders, ls);
      }
    }
  }
}
