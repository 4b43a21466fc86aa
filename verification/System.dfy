/** The whole kernel as a state machine. One action is one critical section of the running
    task, an interrupt, a tickless sleep, or the switch that PendSV performs. */
module System {
  import opened Selection
  import opened Kernel
  import opened EventBits
  import opened Primitives
  import Timers

  /** How long a call may wait: the try variants, the timed ones (absolute deadline in
      milliseconds), and the plain ones. */
  datatype Patience = Never | Until(due: nat) | Forever

  datatype Op =
    | Lock(m: nat, p: Patience)
    | Take(x: nat, p: Patience)
    | Send(q: nat, item: RingBuffer.Item, p: Patience)
    | Recv(q: nat, p: Patience)
    | Await(e: nat, mask: bv32, mode: Mode, autoClear: bool, p: Patience)

  /** Where a task is: outside the kernel, in `sched_delay_ms`, at the top of the retry
      loop of a call, between the two critical sections of `mutex_lock`, past
      `sched_block_locked`, or between popping a waiter of a queue and waking it. */
  datatype Pc =
    | User
    | Delaying(until: nat)
    | Called(op: Op)
    | Slow(op: Op)
    | Asleep(op: Op, slot: nat)
    | Waking(w: nat, op: Op)

  datatype Sys = Sys(
    k: State,
    objs: seq<Object>,
    pcs: seq<Pc>,
    pool: seq<Option<Entry>>,
    now: nat,
    log: seq<Note>,
    base: seq<nat>,
    lowered: bool)

  datatype Action =
    | Call(op: Op)
    | Continue
    | Unlock(m: nat)
    | StartDelay(ms: nat)
    | YieldNow
    | IsrGive(x: nat)
    | IsrTake(x: nat)
    | IsrSend(q: nat, item: RingBuffer.Item)
    | IsrRecv(q: nat)
    | SetBits(e: nat, bits: bv32)
    | ClearBits(e: nat, bits: bv32)
    | Tick
    | Sleep(ms: nat)
    | PendSv

  /** Every object has two wait lists; only queues use the second, for senders. */
  function ListOf(op: Op): nat {
    match op
    case Lock(m, _) => 2 * m
    case Take(x, _) => 2 * x
    case Send(q, _, _) => 2 * q + 1
    case Recv(q, _) => 2 * q
    case Await(e, _, _, _, _) => 2 * e
  }

  predicate Fits(objs: seq<Object>, op: Op) {
    match op
    case Lock(m, _) => m < |objs| && objs[m].Mutex?
    case Take(x, p) => x < |objs| && objs[x].Semaphore? && !p.Until?
    case Send(q, _, _) => q < |objs| && objs[q].Queue?
    case Recv(q, _) => q < |objs| && objs[q].Queue?
    case Await(e, _, _, _, p) => e < |objs| && objs[e].Group? && !p.Never?
  }

  ghost predicate PcFits(s: Sys, t: int)
    requires 0 <= t < |s.pcs|
  {
    match s.pcs[t]
    case User => true
    case Delaying(_) => true
    case Called(op) => Fits(s.objs, op)
    case Slow(op) => Fits(s.objs, op) && op.Lock? && !op.p.Never?
    case Asleep(op, slot) => Fits(s.objs, op) && !op.p.Never? && (op.Await? ==> slot < |s.pool|)
    case Waking(w, op) => w < |s.k.tasks|
  }

  /** An owner is a task, and a saved priority is one. */
  predicate OwnerFits(x: Object, n: nat) {
    x.Mutex? ==> (x.owner.Some? ==> x.owner.value < n) && (x.elevated ==> x.saved < NO_PRIO)
  }

  ghost predicate Shape(s: Sys) {
    && Shaped(s.k)
    && |s.pcs| == |s.k.tasks|
    && |s.base| == |s.k.tasks|
    && |s.k.lists| == 2 * |s.objs|
    && (forall o :: 0 <= o < |s.objs| ==> OwnerFits(s.objs[o], |s.k.tasks|))
    && (forall t :: 0 <= t < |s.pcs| ==> PcFits(s, t))
  }

  /** Same tasks, lists, objects and pool, by number. */
  ghost predicate Kin(s: Sys, r: Sys) {
    && |r.k.tasks| == |s.k.tasks| && |r.k.lists| == |s.k.lists| && |r.pcs| == |s.pcs|
    && |r.objs| == |s.objs| && |r.pool| == |s.pool| && r.base == s.base
  }

  // ---- Pieces of the actions; `c` is the running task ----

  function Goto(s: Sys, pc: Pc): (r: Sys)
    requires s.k.current < |s.pcs|
    ensures Kin(s, r)
  {
    s.(pcs := s.pcs[s.k.current := pc])
  }

  /** Leaves a call that succeeded; a timed one clears `wait_list_head`. */
  function Finish(s: Sys, p: Patience): (r: Sys)
    requires s.k.current < |s.pcs| && s.k.current < |s.k.tasks|
    ensures Kin(s, r)
  {
    var c := s.k.current;
    var t := Goto(s, User);
    if p.Until? then t.(k := SetTask(t.k, c, t.k.tasks[c].(head := None))) else t
  }

  /** "now >= deadline", as the 32-bit code checks it. */
  predicate SeemsPast(now: nat, due: nat) {
    Timers.Shown(now) >= Timers.Shown(due)
  }

  predicate Passed(s: Sys, p: Patience) {
    p.Until? && SeemsPast(s.now, p.due)
  }

  function ArmFor(s: Sys, op: Op): Arm {
    match op.p
    case Until(due) =>
      var now, deadline := Timers.Shown(s.now), Timers.Shown(due);
      Timed(if deadline > now then deadline - now else 0)
    case _ => if op.Await? then NoHead else Untimed
  }

  function BlockOn(s: Sys, op: Op, slot: nat): (r: Sys)
    requires Shape(s) && ListOf(op) < |s.k.lists|
    ensures Kin(s, r)
  {
    Goto(s, Asleep(op, slot)).(k := Block(s.k, ListOf(op), ArmFor(s, op)), lowered := false)
  }

  function LockTry(s: Sys, op: Op): (r: Sys)
    requires Shape(s) && Fits(s.objs, op) && op.Lock?
    ensures Kin(s, r)
  {
    var m := s.objs[op.m];
    if m.owner.None? then Finish(s.(objs := s.objs[op.m := Acquire(s.k, m)]), op.p)
    else if op.p.Never? then Goto(s, User)
    else Goto(s, Slow(op))
  }

  /** The second critical section of `mutex_lock` and `mutex_lock_timeout`. */
  function LockSlow(s: Sys, op: Op): (r: Sys)
    requires Shape(s) && Fits(s.objs, op) && op.Lock?
    ensures Kin(s, r)
  {
    var m := s.objs[op.m];
    if Passed(s, op.p) then Goto(s, User)
    else if m.owner.None? then Goto(s, Called(op))
    else
      var (k, n) := Inherit(s.k, m);
      Goto(s, Asleep(op, 0)).(
        k := Block(k, ListOf(op), ArmFor(s, op)),
        objs := s.objs[op.m := n],
        lowered := false)
  }

  function TakeTry(s: Sys, op: Op): (r: Sys)
    requires Shape(s) && Fits(s.objs, op) && op.Take?
    ensures Kin(s, r)
  {
    var x := s.objs[op.x];
    if x.count > 0 then Goto(s.(objs := s.objs[op.x := TakeOne(x)]), User)
    else if op.p.Never? then Goto(s, User)
    else BlockOn(s, op, 0)
  }

  /** After a queue changed: pop a waiter of list `l`. A waiter with a running timeout is
      woken at once, any other one in a separate step. */
  function PopThenWake(s: Sys, l: nat, op: Op): (r: Sys)
    requires Shape(s) && l < |s.k.lists|
    ensures Kin(s, r)
  {
    if s.k.lists[l] == [] then Finish(s, op.p)
    else
      var w := s.k.lists[l][0];
      if s.k.tasks[w].delay > 0
      then Finish(s.(k := PopWake(s.k, l), lowered := false), op.p)
      else Goto(s.(k := Pop(s.k, l)), Waking(w, op))
  }

  function SendTry(s: Sys, op: Op): (r: Sys)
    requires Shape(s) && Fits(s.objs, op) && op.Send?
    ensures Kin(s, r)
  {
    var q := s.objs[op.q];
    if |q.items| < q.capacity then
      PopThenWake(s, 2 * op.q, op).(objs := s.objs[op.q := q.(items := q.items + [op.item])])
    else if op.p.Never? || Passed(s, op.p) then Goto(s, User)
    else BlockOn(s, op, 0)
  }

  function RecvTry(s: Sys, op: Op): (r: Sys)
    requires Shape(s) && Fits(s.objs, op) && op.Recv?
    ensures Kin(s, r)
  {
    var q := s.objs[op.q];
    if |q.items| > 0 then
      PopThenWake(s, 2 * op.q + 1, op).(objs := s.objs[op.q := q.(items := q.items[1..])])
    else if op.p.Never? || Passed(s, op.p) then Goto(s, User)
    else BlockOn(s, op, 0)
  }

  function AwaitTry(s: Sys, op: Op): (r: Sys)
    requires Shape(s) && Fits(s.objs, op) && op.Await?
    ensures Kin(s, r)
  {
    var bits := s.objs[op.e].bits;
    var c := s.k.current;
    if Met(bits, op.mask, op.mode) then
      var t := Goto(s, User);
      if op.autoClear then
        t.(objs := s.objs[op.e := Group(Without(bits, op.mask))],
           log := s.log + [Consumed(op.e, c, op.mask, bits)])
      else t
    else if Passed(s, op.p) then Goto(s, User)
    else
      var i := FreeSlot(s.pool);
      if i == |s.pool| then
        if op.p.Until? then Goto(s, User) else Goto(s, Called(op))
      else
        Goto(s, Asleep(op, i)).(
          k := Block(s.k, ListOf(op), ArmFor(s, op)),
          pool := s.pool[i := Some(Entry(c, op.e, op.mask, op.mode, op.autoClear, 0))],
          lowered := false)
  }

  function TryOp(s: Sys, op: Op): (r: Sys)
    requires Shape(s) && Fits(s.objs, op)
    ensures Kin(s, r)
  {
    match op
    case Lock(_, _) => LockTry(s, op)
    case Take(_, _) => TakeTry(s, op)
    case Send(_, _, _) => SendTry(s, op)
    case Recv(_, _) => RecvTry(s, op)
    case Await(_, _, _, _, _) => AwaitTry(s, op)
  }

  /** A task that slept runs again: give up if it timed out, return the observed flags, or
      go round the loop. */
  function Resume(s: Sys, op: Op, slot: nat): (r: Sys)
    requires Shape(s) && Fits(s.objs, op) && (op.Await? ==> slot < |s.pool|)
    ensures Kin(s, r)
  {
    var c := s.k.current;
    var freed := if op.Await? then s.(pool := s.pool[slot := None]) else s;
    if op.p.Until? && s.k.tasks[c].timedOut then
      Goto(freed, User).(k := SetTask(s.k, c, s.k.tasks[c].(timedOut := false, head := None)))
    else if op.Await? then Goto(freed, User)
    else TryOp(s, op)
  }

  function Advance(s: Sys): (r: Sys)
    requires Shape(s)
    ensures Kin(s, r)
  {
    var c := s.k.current;
    assert PcFits(s, c);
    match s.pcs[c]
    case User => s
    case Delaying(_) => Goto(s, User)
    case Called(op) => TryOp(s, op)
    case Slow(op) => LockSlow(s, op)
    case Asleep(op, slot) => Resume(s, op, slot)
    case Waking(w, op) => Finish(s.(k := Wake(s.k, w), lowered := false), op.p)
  }

  /** `mutex_unlock` by the owner. With nobody to wake there is no new decision, even when
      the owner's priority drops: `lowered` (auxiliary) remembers that. */
  function UnlockBy(s: Sys, m: nat): (r: Sys)
    requires Shape(s) && m < |s.objs| && s.objs[m].Mutex? && s.objs[m].owner.Some?
    ensures Kin(s, r)
  {
    var x := s.objs[m];
    s.(k := UnlockKernel(s.k, x, 2 * m),
       objs := s.objs[m := Release(x)],
       lowered := s.k.lists[2 * m] == [] && (x.elevated || s.lowered))
  }

  /** The machine with a sweep of group `e` at `w`. */
  function Embed(s: Sys, w: Swept, e: nat): Sys
    requires e < |s.objs|
  {
    s.(k := w.k, objs := s.objs[e := Group(w.bits)], pool := w.pool, log := w.log)
  }

  /** Where the sweep of `event_set` begins. */
  function SweepStart(s: Sys, e: nat, bits: bv32): Swept
    requires e < |s.objs| && s.objs[e].Group?
  {
    Swept(s.k, With(s.objs[e].bits, bits), s.pool, s.log + [WasSet(e, bits)])
  }

  /** `event_set`. */
  function SetFlags(s: Sys, e: nat, bits: bv32): (r: Sys)
    requires Shape(s) && e < |s.objs| && s.objs[e].Group?
    ensures Kin(s, r)
  {
    var w := Sweep(SweepStart(s, e, bits), 2 * e, 0);
    Embed(s, w, e).(lowered := s.lowered && |w.k.lists[2 * e]| == |s.k.lists[2 * e]|)
  }

  function Give(s: Sys, x: nat): (r: Sys)
    requires Shape(s) && x < |s.objs| && s.objs[x].Semaphore?
    ensures Kin(s, r)
  {
    s.(k := PopWake(s.k, 2 * x), objs := s.objs[x := GiveOne(s.objs[x])],
       lowered := s.lowered && s.k.lists[2 * x] == [])
  }

  function QueueFromIsr(s: Sys, q: nat, items: seq<RingBuffer.Item>, l: nat): (r: Sys)
    requires Shape(s) && q < |s.objs| && s.objs[q].Queue? && l < |s.k.lists|
    ensures Kin(s, r)
  {
    s.(k := PopWake(s.k, l), objs := s.objs[q := s.objs[q].(items := items)],
       lowered := s.lowered && s.k.lists[l] == [])
  }

  // ---- The machine ----

  /** The current task's choice has been delivered, and it is not the idle task. */
  predicate TaskRuns(s: Sys) {
    s.k.current == s.k.next && s.k.current < |s.k.tasks| - 1 && s.k.current < |s.pcs|
  }

  /** Every running delay is at least `ms`: the budget of a tickless sleep. */
  ghost predicate WithinBudget(k: State, ms: nat) {
    forall t :: 0 <= t < |k.tasks| - 1 && k.tasks[t].state.Blocked? && k.tasks[t].delay > 0 ==> ms <= k.tasks[t].delay
  }

  ghost predicate Enabled(s: Sys, a: Action) {
    match a
    case Call(op) => TaskRuns(s) && s.pcs[s.k.current].User? && Fits(s.objs, op)
    case Continue => TaskRuns(s) && !s.pcs[s.k.current].User?
    case Unlock(m) => TaskRuns(s) && s.pcs[s.k.current].User? && m < |s.objs| && s.objs[m].Mutex?
                      && s.objs[m].owner == Some(s.k.current)
    case StartDelay(ms) => TaskRuns(s) && s.pcs[s.k.current].User? && ms > 0
    case YieldNow => TaskRuns(s) && s.pcs[s.k.current].User?
    case IsrGive(x) => x < |s.objs| && s.objs[x].Semaphore?
    case IsrTake(x) => x < |s.objs| && s.objs[x].Semaphore? && s.objs[x].count > 0
    case IsrSend(q, item) => q < |s.objs| && s.objs[q].Queue? && |s.objs[q].items| < s.objs[q].capacity
    case IsrRecv(q) => q < |s.objs| && s.objs[q].Queue? && |s.objs[q].items| > 0
    case SetBits(e, _) => e < |s.objs| && s.objs[e].Group?
    case ClearBits(e, _) => e < |s.objs| && s.objs[e].Group?
    case Tick => true
    case Sleep(ms) => s.k.current == s.k.next == |s.k.tasks| - 1 && ms > 0 && WithinBudget(s.k, ms)
    case PendSv => true
  }

  ghost function Apply(s: Sys, a: Action): (r: Sys)
    requires Shape(s) && Enabled(s, a)
    ensures Kin(s, r)
  {
    match a
    case Call(op) => Goto(s, Called(op))
    case Continue => Advance(s)
    case Unlock(m) => UnlockBy(s, m)
    case StartDelay(ms) => Goto(s, Delaying(s.now + ms)).(k := Delay(s.k, ms), lowered := false)
    case YieldNow => s.(k := Yield(s.k), lowered := false)
    case IsrGive(x) => Give(s, x)
    case IsrTake(x) => s.(objs := s.objs[x := TakeOne(s.objs[x])])
    case IsrSend(q, item) => QueueFromIsr(s, q, s.objs[q].items + [item], 2 * q)
    case IsrRecv(q) => QueueFromIsr(s, q, s.objs[q].items[1..], 2 * q + 1)
    case SetBits(e, bits) => SetFlags(s, e, bits)
    case ClearBits(e, bits) => s.(objs := s.objs[e := Group(Without(s.objs[e].bits, bits))])
    case Tick => s.(k := TickN(s.k, 1), now := s.now + 1, lowered := false)
    case Sleep(ms) => s.(k := TickN(s.k, ms), now := s.now + ms, lowered := false)
    case PendSv => s.(k := Deliver(s.k))
  }
}
