/** What a call returns with. A critical section of a call gives the caller what it asks for
    just when that is there; so a plain call gets it exactly once, and any other returns
    without it only when it may not wait any longer. */
module Calls {
  import opened Selection
  import opened WaitQueue
  import opened Kernel
  import opened KernelLemmas
  import opened Effects
  import opened EventBits
  import opened Primitives
  import opened System
  import opened Integrity
  import opened IntegritySteps
  import opened Runs
  import opened Timing
  import opened EventRuns

  /** The object of a call. */
  function Target(op: Op): nat {
    match op
    case Lock(m, _) => m
    case Take(x, _) => x
    case Send(q, _, _) => q
    case Recv(q, _) => q
    case Await(e, _, _, _, _) => e
  }

  /** What the call asks for is there. */
  ghost predicate There(a: Object, op: Op) {
    match op
    case Lock(_, _) => a.Mutex? && a.owner.None?
    case Take(_, _) => a.Semaphore? && a.count > 0
    case Send(_, _, _) => a.Queue? && |a.items| < a.capacity
    case Recv(_, _) => a.Queue? && a.items != []
    case Await(_, mask, mode, _, _) => a.Group? && Wanted(a.bits, mask, mode)
  }

  /** Task `t` gets it, and the object changes in no other way. */
  ghost predicate Got(a: Object, b: Object, op: Op, t: nat) {
    There(a, op) &&
    match op
    case Lock(_, _) => b.Mutex? && b.owner == Some(t) && b.elevated == a.elevated && b.saved == a.saved
    case Take(_, _) => b == Semaphore(a.count - 1, a.max, a.given, a.taken + 1)
    case Send(_, item, _) => b == Queue(a.items + [item], a.capacity)
    case Recv(_, _) => b == Queue(a.items[1..], a.capacity)
    case Await(_, mask, _, autoClear, _) =>
      b.Group? && forall f: bv32 :: IsBit(f) ==> (Has(b.bits, f) <==> Has(a.bits, f) && !(autoClear && Has(mask, f)))
  }

  /** The call takes nothing; one that queues for a mutex may leave its mark there. */
  predicate Kept(a: Object, b: Object, op: Op) {
    b == a || (op.Lock? && a.Mutex? && b.Mutex? && b.owner == a.owner)
  }

  /** The clock shows the deadline to be past. */
  predicate DeadlineShows(s: Sys, op: Op) {
    op.p.Until? && Timers.Shown(s.now) >= Timers.Shown(op.p.due)
  }

  /** The caller sleeps on the list of its call. */
  ghost predicate Sleeps(s: Sys, r: Sys, op: Op)
    requires s.k.current < |s.k.tasks|
  {
    var c := s.k.current;
    && c < |r.pcs| && c < |r.k.tasks|
    && r.pcs[c].Asleep? && r.pcs[c].op == op && r.k.tasks[c].state.Blocked? && r.k.tasks[c].on == Some(ListOf(op))
  }

  /** The first waiter on the other side of a queue leaves its list: it is woken at once, or the caller
      goes on to wake it. */
  ghost predicate ServesFirst(s: Sys, r: Sys, l: nat)
    requires s.k.current < |r.pcs|
  {
    var pc := r.pcs[s.k.current];
    && l < |s.k.lists|
    && r.k.lists == s.k.lists[l := if s.k.lists[l] == [] then [] else s.k.lists[l][1..]]
    && if s.k.lists[l] == [] then pc == User
       else
         var w := s.k.lists[l][0];
         if pc.Waking? then pc.w == w else pc == User && w < |r.k.tasks| && !r.k.tasks[w].state.Blocked?
  }

  /** One critical section of a call by the running task: it gets what it asks for, or takes nothing
      and gives up, sleeps, or goes on to the second section of a lock. */
  ghost predicate Tried(s: Sys, r: Sys, op: Op)
    requires TaskRuns(s) && Target(op) < |s.objs|
  {
    var c, o := s.k.current, Target(op);
    && |r.objs| == |s.objs| && |r.pcs| == |s.pcs|
    && if There(s.objs[o], op) then
         && r.objs == s.objs[o := r.objs[o]]
         && Got(s.objs[o], r.objs[o], op, c) && (r.pcs[c] == User || (r.pcs[c].Waking? && r.pcs[c].op == op))
         && (if op.Send? then ServesFirst(s, r, 2 * o)
             else if op.Recv? then ServesFirst(s, r, 2 * o + 1)
             else r.pcs[c] == User)
         && (op.Lock? ==> r.objs[o] == Mutex(Some(c), s.objs[o].saved, s.objs[o].elevated, [], s.k.clock))
         && (op.Await? ==> r.log == s.log + if op.autoClear then [Consumed(o, c, op.mask, s.objs[o].bits)] else [])
       else
         && r.objs == s.objs
         && if op.p.Never? then r.pcs[c] == User
            else if op.Lock? then r.pcs[c] == Slow(op)
            else if DeadlineShows(s, op) then r.pcs[c] == User
            else if op.Await? && (forall i :: 0 <= i < |s.pool| ==> s.pool[i].Some?) then
              r.pcs[c] == if op.p.Until? then User else Called(op)
            else Sleeps(s, r, op)
  }

  lemma BlockSleeps(s: Sys, op: Op, slot: nat, r: Sys)
    requires Shape(s) && TaskRuns(s) && ListOf(op) < |s.k.lists|
    requires r.k == Block(s.k, ListOf(op), ArmFor(s, op)) && r.pcs == s.pcs[s.k.current := Asleep(op, slot)]
    ensures Sleeps(s, r, op)
  {
    hide Block, ArmFor, PcFits, OwnerFits;
    BlockEffect(s.k, ListOf(op), ArmFor(s, op));
  }

  lemma FirstLeaves(k: State, l: nat)
    requires Bounds(k) && l < |k.lists| && InRange(k.lists[l], |k.tasks|) && k.lists[l] != []
    ensures var p, r, q, w := Pop(k, l), PopWake(k, l), k.lists[l := k.lists[l][1..]], k.lists[l][0];
      && p.lists == q && p.current == k.current
      && r.lists == q && r.current == k.current && |r.tasks| == |k.tasks| && !r.tasks[w].state.Blocked?
  {
    hide Wake;
    var p := Pop(k, l);
    assert p.lists[l] == k.lists[l][1..];
    WakeEffect(p, k.lists[l][0]);
  }

  lemma PopLeaves(s: Sys, l: nat, op: Op)
    requires Shape(s) && TaskRuns(s) && l < |s.k.lists|
    ensures var r, c := PopThenWake(s, l, op), s.k.current;
      && r.objs == s.objs && |r.pcs| == |s.pcs|
      && (r.pcs[c] == User || (r.pcs[c].Waking? && r.pcs[c].op == op))
      && ServesFirst(s, r, l)
  {
    hide PopWake, Pop, PcFits, OwnerFits;
    if s.k.lists[l] != [] {
      FirstLeaves(s.k, l);
    }
  }

  lemma LockTried(s: Sys, op: Op)
    requires Shape(s) && TaskRuns(s) && Fits(s.objs, op) && op.Lock?
    ensures Tried(s, TryOp(s, op), op)
  {
    hide Shaped, PcFits, OwnerFits;
  }

  lemma TakeTried(s: Sys, op: Op)
    requires Shape(s) && TaskRuns(s) && Fits(s.objs, op) && op.Take?
    ensures Tried(s, TryOp(s, op), op)
  {
    hide Block, ArmFor, Shaped, PcFits, OwnerFits, Sleeps;
    if s.objs[op.x].count <= 0 && !op.p.Never? {
      BlockSleeps(s, op, 0, TakeTry(s, op));
    }
  }

  lemma QueueTried(s: Sys, op: Op)
    requires Shape(s) && TaskRuns(s) && Fits(s.objs, op) && (op.Send? || op.Recv?)
    ensures Tried(s, TryOp(s, op), op)
  {
    hide PopThenWake, Block, ArmFor, Shaped, PcFits, OwnerFits, Sleeps;
    if There(s.objs[op.q], op) {
      PopLeaves(s, if op.Send? then 2 * op.q else 2 * op.q + 1, op);
    } else if !op.p.Never? && !DeadlineShows(s, op) {
      BlockSleeps(s, op, 0, TryOp(s, op));
    }
  }

  lemma AwaitTried(s: Sys, op: Op)
    requires Shape(s) && TaskRuns(s) && Fits(s.objs, op) && op.Await?
    ensures Tried(s, TryOp(s, op), op)
  {
    hide Block, ArmFor, Met, Wanted, Without, Has, IsBit, Shaped, PcFits, OwnerFits, Sleeps;
    var bits, r, i := s.objs[op.e].bits, TryOp(s, op), FreeSlot(s.pool);
    MetIsWanted(bits, op.mask, op.mode);
    if Met(bits, op.mask, op.mode) {
      forall f: bv32 | IsBit(f)
        ensures Has(r.objs[op.e].bits, f) <==> Has(bits, f) && !(op.autoClear && Has(op.mask, f))
      {
        WithoutFlags(bits, op.mask, f);
      }
    } else if !DeadlineShows(s, op) && i < |s.pool| {
      BlockSleeps(s, op, i, r);
    }
  }

  /** Every critical section of every call. */
  lemma TryTried(s: Sys, op: Op)
    requires Shape(s) && TaskRuns(s) && Fits(s.objs, op)
    ensures Tried(s, TryOp(s, op), op)
  {
    hide TryOp, Tried;
    match op
    case Lock(_, _) => LockTried(s, op);
    case Take(_, _) => TakeTried(s, op);
    case Send(_, _, _) => QueueTried(s, op);
    case Recv(_, _) => QueueTried(s, op);
    case Await(_, _, _, _, _) => AwaitTried(s, op);
  }

  /** What the running task, inside a call, makes of its next step. */
  ghost predicate Continued(s: Sys, r: Sys)
    requires Shape(s) && TaskRuns(s)
  {
    var c := s.k.current;
    && |r.pcs| == |s.pcs| && |r.objs| == |s.objs| && |r.k.tasks| == |s.k.tasks|
    && match s.pcs[c]
       case Called(op) => Target(op) < |s.objs| && Tried(s, r, op)
       case Slow(op) =>
         && Target(op) < |s.objs| && r.objs == s.objs[Target(op) := r.objs[Target(op)]]
         && Kept(s.objs[Target(op)], r.objs[Target(op)], op)
         && if DeadlineShows(s, op) then r.pcs[c] == User && r.objs == s.objs
            else if There(s.objs[Target(op)], op) then r.pcs[c] == Called(op) && r.objs == s.objs
            else Sleeps(s, r, op)
       case Asleep(op, slot) =>
         if op.p.Until? && s.k.tasks[c].timedOut then
           r.objs == s.objs && r.pcs[c] == User && !r.k.tasks[c].timedOut && r.k.tasks[c].head.None?
         else if op.Await? then
           r.objs == s.objs && r.pcs[c] == User && |r.pool| == |s.pool| && slot < |r.pool| && r.pool[slot].None?
         else Target(op) < |s.objs| && Tried(s, r, op)
       case Waking(w, op) =>
         r.objs == s.objs && r.pcs[c] == User && w < |r.k.tasks| && !r.k.tasks[w].state.Blocked?
       case _ => true
  }

  lemma SlowEnds(s: Sys, op: Op)
    requires Shape(s) && TaskRuns(s) && s.pcs[s.k.current] == Slow(op) && Fits(s.objs, op) && op.Lock?
    ensures Continued(s, Advance(s))
  {
    hide Block, Inherit, ArmFor, Shaped, PcFits, OwnerFits;
    var m := s.objs[op.m];
    if !DeadlineShows(s, op) && m.owner.Some? {
      assert OwnerFits(m, |s.k.tasks|);
      SlowBlocks(s, op);
    }
  }

  lemma SlowBlocks(s: Sys, op: Op)
    requires Shape(s) && TaskRuns(s) && Fits(s.objs, op) && op.Lock? && s.objs[op.m].owner.Some?
    requires !Passed(s, op.p)
    ensures Sleeps(s, LockSlow(s, op), op)
  {
    hide Block, ArmFor, PcFits;
    var k := Inherit(s.k, s.objs[op.m]).0;
    assert OwnerFits(s.objs[op.m], |s.k.tasks|);
    BlockEffect(k, ListOf(op), ArmFor(s, op));
  }

  lemma AdvanceContinues(s: Sys)
    requires Shape(s) && TaskRuns(s)
    ensures Continued(s, Advance(s))
  {
    hide TryOp, LockSlow, Wake, Tried, Sleeps, Shaped, OwnerFits;
    var c := s.k.current;
    assert PcFits(s, c);
    match s.pcs[c]
    case Called(op) => TryTried(s, op);
    case Slow(op) => SlowEnds(s, op);
    case Asleep(op, slot) =>
      if !(op.p.Until? && s.k.tasks[c].timedOut) && !op.Await? {
        TryTried(s, op);
      }
    case Waking(w, op) => WakeEffect(s.k, w);
    case _ =>
  }

  // ---- One step ----

  /** The caller may not wait any longer: a try call, or a timed one that has timed out or finds
      its deadline past. */
  ghost predicate LetsGo(s: Sys, t: nat, op: Op)
    requires t < |s.pcs| && t < |s.k.tasks|
  {
    op.p.Never? || DeadlineShows(s, op) || (op.p.Until? && s.pcs[t].Asleep? && s.k.tasks[t].timedOut)
  }

  /** A plain call on a mutex, semaphore or queue leaves its retry loop only in the step in which it
      gets what it asks for: the mutex, one token, room for its own item, or the oldest item. Any
      other call may also leave when it may not wait any longer, and then it has taken nothing. */
  lemma LeavesWith(s: Sys, op: Op)
    requires Shape(s) && TaskRuns(s) && !op.Await?
    requires var pc := s.pcs[s.k.current]; CallOf(pc) == Some(op) && !pc.Waking?
    ensures var r, c, o := Advance(s), s.k.current, Target(op);
      && |r.pcs| == |s.pcs| && |r.objs| == |s.objs| && o < |s.objs|
      && (r.pcs[c].User? || r.pcs[c].Waking? ==>
            Got(s.objs[o], r.objs[o], op, c) || (LetsGo(s, c, op) && r.objs == s.objs && r.pcs[c].User?))
      && (CallOf(r.pcs[c]) == Some(op) && !r.pcs[c].Waking? ==> Kept(s.objs[o], r.objs[o], op))
  {
    hide Advance, Shaped, OwnerFits;
    assert PcFits(s, s.k.current);
    AdvanceContinues(s);
  }

  /** `event_wait` returns with its condition met, on the present flags or, after a sleep, on those
      that the sweep recorded for it. A timed one may also return when it has timed out, finds its
      deadline past, or finds no free slot. */
  lemma WaitReturns(s: Sys, op: Op)
    requires SysInv(s) && EventInv(s) && TaskRuns(s) && AwaitPc(s.pcs[s.k.current])
    requires CallOf(s.pcs[s.k.current]) == Some(op) && Advance(s).pcs[s.k.current].User?
    ensures var r, pc := Advance(s), s.pcs[s.k.current];
      match pc
      case Called(_) =>
        || (op.e < |s.objs| && |r.objs| == |s.objs| && Got(s.objs[op.e], r.objs[op.e], op, s.k.current))
        || (op.p.Until? && r.objs == s.objs
            && (DeadlineShows(s, op) || forall i :: 0 <= i < |s.pool| ==> s.pool[i].Some?))
      case Asleep(_, slot) =>
        || (op.p.Until? && s.k.tasks[s.k.current].timedOut)
        || (slot < |s.pool| && s.pool[slot].Some? && Wanted(s.pool[slot].value.observed, op.mask, op.mode))
      case _ => false
  {
    hide Advance, Shaped, OwnerFits, Wanted, Met, Has, IsBit, Uses, WakersDiffer, OneRunning;
    var c := s.k.current;
    assert PcFits(s, c) && SlotOk(s, c);
    AdvanceContinues(s);
    if s.pcs[c].Asleep? {
      RunnerAwake(s);
      if !(op.p.Until? && s.k.tasks[c].timedOut) {
        MetIsWanted(s.pool[s.pcs[c].slot].value.observed, op.mask, op.mode);
      }
    }
  }

  // ---- A whole call ----

  /** Step `k` of the run is one of task `t` itself, inside the kernel. */
  predicate Own(tr: seq<Sys>, acts: seq<Action>, t: nat, k: nat) {
    k < |acts| && k < |tr| && acts[k].Continue? && tr[k].k.current == t
  }

  ghost predicate GainsAt(tr: seq<Sys>, acts: seq<Action>, t: nat, op: Op, k: nat) {
    && Own(tr, acts, t, k) && k + 1 < |tr| && Target(op) < |tr[k].objs| && Target(op) < |tr[k + 1].objs|
    && Got(tr[k].objs[Target(op)], tr[k + 1].objs[Target(op)], op, t)
  }

  ghost predicate KeepsAt(tr: seq<Sys>, acts: seq<Action>, t: nat, op: Op, k: nat) {
    Own(tr, acts, t, k) ==>
      && k + 1 < |tr| && Target(op) < |tr[k].objs| && Target(op) < |tr[k + 1].objs|
      && Kept(tr[k].objs[Target(op)], tr[k + 1].objs[Target(op)], op)
  }

  /** Between `i` and `j` no step of the task takes anything. */
  ghost predicate NeverIn(tr: seq<Sys>, acts: seq<Action>, t: nat, op: Op, i: nat, j: nat) {
    forall k: nat :: i <= k < j ==> KeepsAt(tr, acts, t, op, k)
  }

  /** Exactly one does. */
  ghost predicate OnceIn(tr: seq<Sys>, acts: seq<Action>, t: nat, op: Op, i: nat, j: nat) {
    exists k: nat :: i <= k < j && GainsAt(tr, acts, t, op, k)
      && NeverIn(tr, acts, t, op, i, k) && NeverIn(tr, acts, t, op, k + 1, j)
  }

  ghost predicate InCall(tr: seq<Sys>, t: nat, op: Op, i: nat, j: nat) {
    forall k :: i <= k < j && k < |tr| ==> t < |tr[k].pcs| && CallOf(tr[k].pcs[t]) == Some(op)
  }

  /** Nobody else moves a task that is inside a call. */
  lemma OthersStay(s: Sys, a: Action, t: nat)
    requires Shape(s) && Enabled(s, a) && t < |s.pcs| && CallOf(s.pcs[t]).Some?
    requires !(a.Continue? && s.k.current == t)
    ensures Apply(s, a).pcs[t] == s.pcs[t]
  {
    hide PopWake, Sweep, TickN, Delay, Yield, UnlockKernel, TryOp, Wake, Block, Inherit, Shaped, OwnerFits;
    if a.Continue? {
      assert PcFits(s, s.k.current);
      if s.pcs[s.k.current].Called? || s.pcs[s.k.current].Asleep? {
        SameCallTry(s, s.pcs[s.k.current].op);
      }
    }
  }

  lemma WakesOnly(s: Sys, op: Op)
    requires Shape(s) && TaskRuns(s)
    requires var pc := s.pcs[s.k.current]; CallOf(pc) == Some(op) && pc.Waking?
    ensures var r := Advance(s); |r.pcs| == |s.pcs| && r.objs == s.objs && r.pcs[s.k.current].User?
  {
    hide Advance, Shaped, OwnerFits;
    AdvanceContinues(s);
  }

  /** One step of the run, seen from a task inside a call. */
  lemma StepOfCall(tr: seq<Sys>, acts: seq<Action>, t: nat, op: Op, k: nat)
    requires IsRun(tr, acts) && Init(tr[0]) && k < |acts| && !op.Await?
    requires t < |tr[k].pcs| && CallOf(tr[k].pcs[t]) == Some(op)
    requires Target(op) < |tr[k].objs|
    ensures |tr[k].pcs| == |tr[k + 1].pcs| == |tr[k].k.tasks| && |tr[k + 1].objs| == |tr[k].objs|
    ensures var p, q := tr[k].pcs[t], tr[k + 1].pcs[t];
      if p.Waking? then (q == p || q.User?) && KeepsAt(tr, acts, t, op, k)
      else if q.Waking? then GainsAt(tr, acts, t, op, k)
      else if q.User? then
        GainsAt(tr, acts, t, op, k) || (Own(tr, acts, t, k) && LetsGo(tr[k], t, op) && KeepsAt(tr, acts, t, op, k))
      else KeepsAt(tr, acts, t, op, k)
  {
    hide Advance, Apply, Init, PcOk, WakersDiffer, Inv;
    var s, a := tr[k], acts[k];
    RunInv(tr, acts, k);
    SameCall(s, a, t);
    if Own(tr, acts, t, k) {
      ContinueAdvances(s);
      if s.pcs[t].Waking? {
        WakesOnly(s, op);
      } else {
        LeavesWith(s, op);
      }
    } else {
      OthersStay(s, a, t);
    }
  }

  lemma ContinueAdvances(s: Sys)
    requires Shape(s) && Enabled(s, Continue)
    ensures Apply(s, Continue) == Advance(s)
  {
  }

  lemma NeverNext(tr: seq<Sys>, acts: seq<Action>, t: nat, op: Op, i: nat, j: nat)
    requires i <= j && NeverIn(tr, acts, t, op, i, j) && KeepsAt(tr, acts, t, op, j)
    ensures NeverIn(tr, acts, t, op, i, j + 1)
  {
    hide KeepsAt;
  }

  lemma OnceNext(tr: seq<Sys>, acts: seq<Action>, t: nat, op: Op, i: nat, j: nat)
    requires i <= j && OnceIn(tr, acts, t, op, i, j) && KeepsAt(tr, acts, t, op, j)
    ensures OnceIn(tr, acts, t, op, i, j + 1)
  {
    hide KeepsAt, GainsAt, NeverIn;
    var k: nat :| i <= k < j && GainsAt(tr, acts, t, op, k)
      && NeverIn(tr, acts, t, op, i, k) && NeverIn(tr, acts, t, op, k + 1, j);
    NeverNext(tr, acts, t, op, k + 1, j);
  }

  lemma FirstGain(tr: seq<Sys>, acts: seq<Action>, t: nat, op: Op, i: nat, j: nat)
    requires i <= j && NeverIn(tr, acts, t, op, i, j) && GainsAt(tr, acts, t, op, j)
    ensures OnceIn(tr, acts, t, op, i, j + 1)
  {
    hide KeepsAt, GainsAt;
  }

  /** How far a call that began in state `i` has come in state `j`: nothing taken while it tries,
      once and only once when it has succeeded, never when it has returned without. */
  ghost predicate CallSoFar(tr: seq<Sys>, acts: seq<Action>, t: nat, op: Op, i: nat, j: nat)
    requires i <= j < |tr| && t < |tr[j].pcs|
  {
    var pc := tr[j].pcs[t];
    if pc.Waking? then OnceIn(tr, acts, t, op, i, j)
    else if pc.User? then
      OnceIn(tr, acts, t, op, i, j) || (GaveUp(tr, acts, t, op, i, j) && NeverIn(tr, acts, t, op, i, j))
    else NeverIn(tr, acts, t, op, i, j)
  }

  /** The last step was the task's own, and it could not wait any longer. */
  ghost predicate GaveUp(tr: seq<Sys>, acts: seq<Action>, t: nat, op: Op, i: nat, j: nat)
    requires j < |tr|
  {
    i < j && Own(tr, acts, t, j - 1) && t < |tr[j - 1].pcs| && t < |tr[j - 1].k.tasks| && LetsGo(tr[j - 1], t, op)
  }

  /** Over any run, from the beginning of a call on a mutex, semaphore or queue until the task leaves
      it: however often it is woken and loses the race, it gets what it asks for exactly once, or,
      if it may not wait any longer, never. A plain call gets it. */
  lemma {:induction false} CallsGetOnce(tr: seq<Sys>, acts: seq<Action>, t: nat, op: Op, i: nat, j: nat)
    requires IsRun(tr, acts) && Init(tr[0]) && i <= j < |tr| && !op.Await?
    requires t < |tr[i].pcs| && tr[i].pcs[t] == Called(op) && InCall(tr, t, op, i, j)
    ensures t < |tr[j].pcs| && Target(op) < |tr[j].objs| && CallSoFar(tr, acts, t, op, i, j)
    ensures op.p.Forever? && tr[j].pcs[t].User? ==> OnceIn(tr, acts, t, op, i, j)
  {
    hide Apply, Init, Own, GainsAt, KeepsAt, NeverIn, OnceIn, PcOk, Inv, WakersDiffer;
    RunInv(tr, acts, i);
    if i == j {
      assert PcFits(tr[i], t);
      NothingYet(tr, acts, t, op, i);
    } else {
      var k := j - 1;
      CallsGetOnce(tr, acts, t, op, i, k);
      StepOfCall(tr, acts, t, op, k);
      if tr[k].pcs[t].Waking? {
        OnceNext(tr, acts, t, op, i, k);
      } else if tr[j].pcs[t].Waking? || (tr[j].pcs[t].User? && GainsAt(tr, acts, t, op, k)) {
        FirstGain(tr, acts, t, op, i, k);
      } else {
        NeverNext(tr, acts, t, op, i, k);
      }
    }
  }

  lemma NothingYet(tr: seq<Sys>, acts: seq<Action>, t: nat, op: Op, i: nat)
    ensures NeverIn(tr, acts, t, op, i, i)
  {
  }

  // ---- Calls of a single step ----

  /** The first waiter of list `l`, if there is one, leaves it and can run; nobody else moves. */
  ghost predicate WakesFirst(k: State, r: State, l: nat) {
    && |r.tasks| == |k.tasks| && |r.lists| == |k.lists| && l < |k.lists|
    && r.lists == k.lists[l := if k.lists[l] == [] then [] else k.lists[l][1..]]
    && (k.lists[l] != [] ==>
          var w := k.lists[l][0]; w < |k.tasks| && !r.tasks[w].state.Blocked? && r.tasks[w].on.None?)
    && (forall t :: 0 <= t < |k.tasks| && (k.lists[l] == [] || t != k.lists[l][0]) ==>
          r.tasks[t].state.Blocked? == k.tasks[t].state.Blocked? && r.tasks[t].on == k.tasks[t].on)
  }

  lemma PopWakesFirst(k: State, l: nat)
    requires Linked(k) && l < |k.lists|
    ensures InRange(k.lists[l], |k.tasks|) && WakesFirst(k, PopWake(k, l), l)
  {
    hide PopWake;
    LinkedShaped(k);
    if k.lists[l] == [] {
      PopWakeNone(k, l);
    } else {
      PopWakeEffect(k, l);
    }
  }

  /** The call that an interrupt makes. */
  function IsrCall(a: Action): Op
    requires a.IsrTake? || a.IsrSend? || a.IsrRecv?
  {
    match a
    case IsrTake(x) => Take(x, Never)
    case IsrSend(q, item) => Send(q, item, Never)
    case IsrRecv(q) => Recv(q, Never)
  }

  /** A try call of an interrupt, or one of a task that is a single critical section, gets the same
      as any other call, and wakes the first waiter on the other side of a queue. */
  lemma IsrGets(s: Sys, a: Action)
    requires SysInv(s) && Enabled(s, a) && (a.IsrTake? || a.IsrSend? || a.IsrRecv?)
    ensures var r, op := Apply(s, a), IsrCall(a);
      && Target(op) < |s.objs| && r.objs == s.objs[Target(op) := r.objs[Target(op)]] && r.pcs == s.pcs
      && Got(s.objs[Target(op)], r.objs[Target(op)], op, s.k.current)
      && match op
         case Take(_, _) => r.k == s.k
         case Send(q, _, _) => WakesFirst(s.k, r.k, 2 * q)
         case Recv(q, _) => WakesFirst(s.k, r.k, 2 * q + 1)
         case _ => false
  {
    hide PopWake, WakesFirst, PcOk, WakersDiffer, OneRunning;
    match a
    case IsrTake(_) =>
    case IsrSend(q, _) => PopWakesFirst(s.k, 2 * q);
    case IsrRecv(q) => PopWakesFirst(s.k, 2 * q + 1);
    case _ => assert false;
  }

  /** `mutex_unlock` frees the mutex and wakes the first waiter. */
  lemma UnlockWakesFirst(s: Sys, m: nat)
    requires SysInv(s) && Enabled(s, Unlock(m))
    ensures var r := Apply(s, Unlock(m));
      && r.objs == s.objs[m := r.objs[m]] && r.pcs == s.pcs
      && r.objs[m].Mutex? && r.objs[m].owner.None? && !r.objs[m].elevated
      && WakesFirst(s.k, r.k, 2 * m)
  {
    hide PopWake, UnlockKernel, Restore, PcOk, WakersDiffer;
    RunnerAwake(s);
    RestoreCore(s, m);
    PopRestore(s.k, s.objs[m], 2 * m);
    PopWakesFirst(Restore(s.k, s.objs[m]), 2 * m);
  }
}
