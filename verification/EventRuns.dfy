/** Event groups over whole runs: nobody sleeps on a condition that holds, every wake-up
    observed its condition, a flag is consumed at most once, and the pool of pending
    entries never runs out. */
module EventRuns {
  import opened Selection
  import opened WaitQueue
  import opened Kernel
  import opened KernelLemmas
  import opened Effects
  import opened EventBits
  import opened Primitives
  import opened System
  import opened Integrity
  import opened IntegritySteps
  import opened Runs
  import opened Frames
  import opened Inheritance

  predicate Awaiting(pc: Pc) {
    pc.Asleep? && pc.op.Await?
  }

  /** Slots and awaiting tasks name each other. */
  ghost predicate PoolOk(s: Sys) {
    forall i :: 0 <= i < |s.pool| && s.pool[i].Some? ==>
      && s.pool[i].value.task < |s.pcs|
      && Awaiting(s.pcs[s.pool[i].value.task])
      && s.pcs[s.pool[i].value.task].slot == i
  }

  /** The slot of an awaiting task records its call; a waiter that was not timed out has
      been woken with its condition met. */
  ghost predicate SlotOk(s: Sys, t: int)
    requires |s.pcs| == |s.k.tasks| && 0 <= t < |s.pcs|
  {
    Awaiting(s.pcs[t]) ==>
      var op, i := s.pcs[t].op, s.pcs[t].slot;
      && i < |s.pool| && s.pool[i].Some?
      && s.pool[i].value.(observed := 0) == Entry(t, op.e, op.mask, op.mode, op.autoClear, 0)
      && (s.k.tasks[t].on.None? && !(op.p.Until? && s.k.tasks[t].timedOut) ==>
            Met(s.pool[i].value.observed, op.mask, op.mode))
  }

  /** A listed waiter's condition does not hold on the present flags. */
  ghost predicate Unmet(s: Sys, t: int)
    requires |s.pcs| == |s.k.tasks| && 0 <= t < |s.pcs|
  {
    Awaiting(s.pcs[t]) && s.k.tasks[t].on.Some? ==>
      var op := s.pcs[t].op;
      op.e < |s.objs| && s.objs[op.e].Group? && !Met(s.objs[op.e].bits, op.mask, op.mode)
  }

  /** How often flag `b` of group `e` has been observed by auto-clear waiters that wanted it
      since it was last set. */
  function Uses(log: seq<Note>, e: nat, b: bv32): nat {
    if log == [] then 0
    else
      var before := log[..|log| - 1];
      match log[|log| - 1]
      case WasSet(g, bits) => if g == e && Has(bits, b) then 0 else Uses(before, e, b)
      case Consumed(g, _, mask, observed) =>
        Uses(before, e, b) + if g == e && Has(mask, b) && Has(observed, b) then 1 else 0
  }

  /** A flag is used at most once per set, and not at all while it is still there. */
  ghost predicate UsesOk(s: Sys) {
    forall e: nat, b: bv32 :: e < |s.objs| && s.objs[e].Group? && IsBit(b) ==>
      Uses(s.log, e, b) <= if Has(s.objs[e].bits, b) then 0 else 1
  }

  ghost predicate EventInv(s: Sys) {
    && |s.pcs| == |s.k.tasks|
    && PoolOk(s)
    && (forall t :: 0 <= t < |s.pcs| ==> SlotOk(s, t) && Unmet(s, t))
    && UsesOk(s)
  }

  // ---- Actions that do not touch event groups ----

  ghost predicate SameGroups(s: Sys, r: Sys) {
    && |r.objs| == |s.objs| && r.pool == s.pool && r.log == s.log
    && forall o :: 0 <= o < |s.objs| && (s.objs[o].Group? || r.objs[o].Group?) ==> r.objs[o] == s.objs[o]
  }

  /** Awaiting tasks stay where they are, or time out. */
  ghost predicate AwaitersStay(s: Sys, r: Sys) {
    && |r.pcs| == |s.pcs| && |r.k.tasks| == |s.k.tasks| == |s.pcs|
    && forall t :: 0 <= t < |s.pcs| ==>
         && (Awaiting(r.pcs[t]) ==> r.pcs[t] == s.pcs[t])
         && (Awaiting(s.pcs[t]) ==>
               && r.pcs[t] == s.pcs[t]
               && (r.k.tasks[t].on == s.k.tasks[t].on
                   || (r.k.tasks[t].on.None? && s.pcs[t].op.p.Until? && r.k.tasks[t].timedOut))
               && (s.k.tasks[t].on.None? ==> r.k.tasks[t].timedOut == s.k.tasks[t].timedOut))
  }

  lemma ElsewhereEvents(s: Sys, r: Sys)
    requires EventInv(s) && SameGroups(s, r) && AwaitersStay(s, r)
    ensures EventInv(r)
  {
    hide Met, Uses;
    forall t | 0 <= t < |r.pcs| ensures SlotOk(r, t) && Unmet(r, t) {
      assert SlotOk(s, t) && Unmet(s, t);
    }
  }

  /** Fewer flags: conditions stay unmet, and uses do not change. */
  lemma FewerFlags(s: Sys, r: Sys, e: nat, gone: bv32)
    requires EventInv(s) && e < |s.objs| && s.objs[e].Group?
    requires r == s.(objs := s.objs[e := Group(Without(s.objs[e].bits, gone))])
    ensures EventInv(r)
  {
    hide Uses, Met, Without, Has, IsBit;
    forall t | 0 <= t < |r.pcs| ensures SlotOk(r, t) && Unmet(r, t) {
      assert SlotOk(s, t) && Unmet(s, t);
      UnmetStays(s, r, e, gone, t);
    }
    forall g: nat, b: bv32 | g < |r.objs| && r.objs[g].Group? && IsBit(b)
      ensures Uses(r.log, g, b) <= if Has(r.objs[g].bits, b) then 0 else 1
    {
      if g == e {
        FewerHas(s.objs[e].bits, gone, b);
      }
    }
  }

  lemma FewerMeet(bits: bv32, gone: bv32, mask: bv32, mode: Mode)
    ensures Met(Without(bits, gone), mask, mode) ==> Met(bits, mask, mode)
  {
    hide Met, Wanted, Without;
    MetIsWanted(Without(bits, gone), mask, mode);
    MetIsWanted(bits, mask, mode);
    if Met(Without(bits, gone), mask, mode) {
      MetMonotone(bits, gone, mask, mode);
    }
  }

  lemma UnmetStays(s: Sys, r: Sys, e: nat, gone: bv32, t: nat)
    requires |s.pcs| == |s.k.tasks| == |r.k.tasks| && r.pcs == s.pcs && t < |s.pcs| && Unmet(s, t)
    requires e < |s.objs| && s.objs[e].Group? && r.objs == s.objs[e := Group(Without(s.objs[e].bits, gone))]
    requires r.k.tasks[t].on == s.k.tasks[t].on
    ensures Unmet(r, t)
  {
    hide Met, Wanted, Without;
    if Awaiting(s.pcs[t]) && s.k.tasks[t].on.Some? && s.pcs[t].op.e == e {
      FewerMeet(s.objs[e].bits, gone, s.pcs[t].op.mask, s.pcs[t].op.mode);
    }
  }

  // ---- The running task waits, or resumes ----

  lemma UsesOfConsumed(log: seq<Note>, g: nat, b: bv32, e: nat, t: nat, mask: bv32, bits: bv32)
    ensures Uses(log + [Consumed(e, t, mask, bits)], g, b)
      == Uses(log, g, b) + if g == e && Has(mask, b) && Has(bits, b) then 1 else 0
  {
    assert (log + [Consumed(e, t, mask, bits)])[..|log|] == log;
  }

  /** One task observes the flags and takes those it waited for. */
  lemma ConsumedUses(s: Sys, r: Sys, e: nat, t: nat, mask: bv32)
    requires UsesOk(s) && e < |s.objs| && s.objs[e].Group?
    requires r.objs == s.objs[e := Group(Without(s.objs[e].bits, mask))]
    requires r.log == s.log + [Consumed(e, t, mask, s.objs[e].bits)]
    ensures UsesOk(r)
  {
    hide Uses, Without, Has, IsBit;
    var bits := s.objs[e].bits;
    forall g: nat, b: bv32 | g < |r.objs| && r.objs[g].Group? && IsBit(b)
      ensures Uses(r.log, g, b) <= if Has(r.objs[g].bits, b) then 0 else 1
    {
      UsesOfConsumed(s.log, g, b, e, t, mask, bits);
      if g == e {
        FewerHas(bits, mask, b);
        if Has(mask, b) {
          WithoutFlag(bits, mask, b);
        }
      }
    }
  }

  lemma AwaitMet(s: Sys, op: Op)
    requires SysInv(s) && EventInv(s) && TaskRuns(s) && Fits(s.objs, op) && op.Await?
    requires s.pcs[s.k.current].Called? && Met(s.objs[op.e].bits, op.mask, op.mode)
    ensures EventInv(AwaitTry(s, op))
  {
    hide Met, Uses, Without, Has, IsBit, PcOk, Inv, WakersDiffer;
    var c := s.k.current;
    var r := AwaitTry(s, op);
    MoveEvents(s, Goto(s, User));
    if op.autoClear {
      var i := Goto(s, User);
      FewerFlags(i, i.(objs := s.objs[op.e := Group(Without(s.objs[op.e].bits, op.mask))]), op.e, op.mask);
      ConsumedUses(i, r, op.e, c, op.mask);
      OtherLog(i.(objs := r.objs), r);
    }
  }

  lemma OtherLog(s: Sys, r: Sys)
    requires EventInv(s) && r == s.(log := r.log) && UsesOk(r)
    ensures EventInv(r)
  {
    hide Met, Uses;
    forall t | 0 <= t < |r.pcs| ensures SlotOk(r, t) && Unmet(r, t) {
      assert SlotOk(s, t) && Unmet(s, t);
    }
  }

  /** A task that does not await anything goes elsewhere, not to await. */
  lemma MoveEvents(s: Sys, r: Sys)
    requires EventInv(s) && s.k.current < |s.pcs| && !Awaiting(s.pcs[s.k.current])
    requires |r.pcs| == |s.pcs| && r == s.(k := r.k, pcs := s.pcs[s.k.current := r.pcs[s.k.current]])
    requires !Awaiting(r.pcs[s.k.current])
    requires |r.k.tasks| == |s.k.tasks|
    requires forall t :: 0 <= t < |s.pcs| && t != s.k.current ==>
      r.k.tasks[t].on == s.k.tasks[t].on && r.k.tasks[t].timedOut == s.k.tasks[t].timedOut
    ensures EventInv(r)
  {
    hide Met, Uses;
    ElsewhereEvents(s, r);
  }

  /** The task that is about to wait owns no slot, so a pool as large as the number of
      tasks has a free one. */
  lemma SlotFree(s: Sys)
    requires SysInv(s) && PoolOk(s) && TaskRuns(s) && !Awaiting(s.pcs[s.k.current])
    requires |s.pool| >= |s.k.tasks| - 1
    ensures FreeSlot(s.pool) < |s.pool|
  {
    hide Inv, PcOk, WakersDiffer, Shaped, PcFits, OwnerFits;
    if FreeSlot(s.pool) == |s.pool| {
      var owners := seq(|s.pool|, i requires 0 <= i < |s.pool| => s.pool[i].value.task);
      forall i, j | 0 <= i < j < |owners| ensures owners[i] != owners[j] {
        assert s.pcs[owners[i]].slot == i && s.pcs[owners[j]].slot == j;
      }
      var others := Below(|s.pcs| - 1) - {s.k.current};
      BelowIs(|s.pcs| - 1);
      forall i | 0 <= i < |owners| ensures owners[i] in others {
        assert Awaiting(s.pcs[owners[i]]);
      }
      Pigeonhole(owners, others);
    }
  }

  lemma {:induction false} Pigeonhole(q: seq<nat>, a: set<nat>)
    requires forall i, j :: 0 <= i < j < |q| ==> q[i] != q[j]
    requires forall i :: 0 <= i < |q| ==> q[i] in a
    ensures |q| <= |a|
  {
    if q != [] {
      Pigeonhole(q[1..], a - {q[0]});
    }
  }

  function Below(n: nat): set<nat> {
    if n == 0 then {} else Below(n - 1) + {n - 1}
  }

  lemma {:induction false} BelowIs(n: nat)
    ensures |Below(n)| == n && forall t: nat :: t in Below(n) <==> t < n
  {
    if n > 0 {
      BelowIs(n - 1);
    }
  }

  /** A task whose condition does not hold takes a free slot and goes to sleep on the list. */
  lemma WaiterJoins(s: Sys, r: Sys, op: Op, i: nat)
    requires EventInv(s) && s.k.current < |s.pcs| && !Awaiting(s.pcs[s.k.current]) && op.Await?
    requires op.e < |s.objs| && s.objs[op.e].Group? && !Met(s.objs[op.e].bits, op.mask, op.mode)
    requires i < |s.pool| && s.pool[i].None?
    requires r == s.(k := r.k, lowered := r.lowered, pcs := s.pcs[s.k.current := Asleep(op, i)],
      pool := s.pool[i := Some(Entry(s.k.current, op.e, op.mask, op.mode, op.autoClear, 0))])
    requires |r.k.tasks| == |s.k.tasks| && r.k.tasks[s.k.current].on.Some?
    requires forall t :: 0 <= t < |s.pcs| && t != s.k.current ==>
      r.k.tasks[t].on == s.k.tasks[t].on && r.k.tasks[t].timedOut == s.k.tasks[t].timedOut
    ensures EventInv(r)
  {
    hide Met, Uses;
    forall t | 0 <= t < |r.pcs| ensures SlotOk(r, t) && Unmet(r, t) {
      assert SlotOk(s, t) && Unmet(s, t);
    }
  }

  lemma AwaitBlocks(s: Sys, op: Op)
    requires SysInv(s) && EventInv(s) && TaskRuns(s) && Fits(s.objs, op) && op.Await? && !Passed(s, op.p)
    requires s.pcs[s.k.current] == Called(op) && !Met(s.objs[op.e].bits, op.mask, op.mode)
    requires FreeSlot(s.pool) < |s.pool|
    ensures EventInv(AwaitTry(s, op))
  {
    hide Met, EventInv, Block, ArmFor, PcOk, WakersDiffer, PcFits, OwnerFits, Inv;
    BlockEffect(s.k, ListOf(op), ArmFor(s, op));
    WaiterJoins(s, AwaitTry(s, op), op, FreeSlot(s.pool));
  }

  lemma AwaitTryEvents(s: Sys, op: Op)
    requires SysInv(s) && EventInv(s) && TaskRuns(s) && Fits(s.objs, op) && op.Await?
    requires s.pcs[s.k.current] == Called(op)
    ensures EventInv(AwaitTry(s, op))
  {
    hide Met, Uses, Block, PcOk, Inv, WakersDiffer, EventInv;
    if Met(s.objs[op.e].bits, op.mask, op.mode) {
      AwaitMet(s, op);
    } else if Passed(s, op.p) || FreeSlot(s.pool) == |s.pool| {
      MoveEvents(s, AwaitTry(s, op));
    } else {
      AwaitBlocks(s, op);
    }
  }

  /** A resumed waiter gives its slot back. */
  lemma AwaitResumes(s: Sys, op: Op, slot: nat)
    requires SysInv(s) && EventInv(s) && TaskRuns(s) && s.pcs[s.k.current] == Asleep(op, slot) && op.Await?
    requires Fits(s.objs, op) && slot < |s.pool|
    ensures EventInv(Resume(s, op, slot))
  {
    hide Met, Uses, PcOk, Inv, WakersDiffer;
    var c := s.k.current;
    var r := Resume(s, op, slot);
    assert SlotOk(s, c);
    forall t | 0 <= t < |r.pcs| ensures SlotOk(r, t) && Unmet(r, t) {
      assert SlotOk(s, t) && Unmet(s, t);
    }
  }

  // ---- The sweep ----

  /** During a sweep of group `e`, the waiters before position `i` are unmet. */
  ghost predicate SweepOk(s: Sys, e: nat, i: nat)
    requires e < |s.objs| && 2 * e < |s.k.lists|
  {
    && |s.pcs| == |s.k.tasks|
    && PoolOk(s)
    && (forall t :: 0 <= t < |s.pcs| ==> SlotOk(s, t) && (s.k.tasks[t].on == Some(2 * e) || Unmet(s, t)))
    && (forall j :: 0 <= j < i && j < |s.k.lists[2 * e]| ==> s.k.lists[2 * e][j] < |s.pcs| && Unmet(s, s.k.lists[2 * e][j]))
    && UsesOk(s)
  }

  /** A listed waiter's own slot is the one that the sweep finds. */
  lemma FindsOwnSlot(s: Sys, t: nat)
    requires |s.pcs| == |s.k.tasks| && PoolOk(s) && t < |s.pcs| && SlotOk(s, t) && Awaiting(s.pcs[t])
    ensures FindSlot(s.pool, t) == s.pcs[t].slot
  {
    var p := FindSlot(s.pool, t);
    var i := s.pcs[t].slot;
    if p < |s.pool| {
      assert s.pcs[s.pool[p].value.task].slot == p;
    }
  }

  /** A waiter listed on group `e` awaits group `e`. */
  lemma ListedAwaits(s: Sys, e: nat, i: nat)
    requires SysInv(s) && e < |s.objs| && s.objs[e].Group? && i < |s.k.lists[2 * e]|
    ensures var t := s.k.lists[2 * e][i];
      && t < |s.pcs| && s.k.tasks[t].on == Some(2 * e)
      && Awaiting(s.pcs[t]) && s.pcs[t].op.e == e
  {
    assert ListOk(s.k, 2 * e);
    OnListPc(s, 2 * e);
  }

  lemma SweepPasses(s: Sys, w: Swept, e: nat, i: nat)
    requires e < |s.objs| && s.objs[e].Group? && SysInv(Embed(s, w, e)) && SweepOk(Embed(s, w, e), e, i)
    requires i < |w.k.lists[2 * e]| && !Satisfied(w, 2 * e, i)
    ensures SweepOk(Embed(s, w, e), e, i + 1)
  {
    hide Met, Uses, PcOk, Inv, WakersDiffer;
    var v := Embed(s, w, e);
    var t := w.k.lists[2 * e][i];
    ListedAwaits(v, e, i);
    FindsOwnSlot(v, t);
    assert SlotOk(v, t);
  }

  /** The sweep goes from `v` to `u` by waking `t`, at position `i`, with slot `p`. */
  ghost predicate SweepsOne(v: Sys, u: Sys, e: nat, i: nat, t: nat, p: nat) {
    && e < |v.objs| && v.objs[e].Group? && p < |v.pool| && v.pool[p].Some? && t < |v.pcs|
    && |v.k.lists| == |u.k.lists| == 2 * |v.objs| && i < |v.k.lists[2 * e]| && v.k.lists[2 * e][i] == t
    && u == v.(k := u.k, objs := u.objs, pool := u.pool, log := u.log)
    && |u.k.tasks| == |v.k.tasks| == |v.pcs| && |u.k.lists| == |v.k.lists|
    && (var en, bits := v.pool[p].value, v.objs[e].bits;
        && Met(bits, en.mask, en.mode)
        && u.pool == v.pool[p := Some(en.(observed := bits))]
        && u.objs == v.objs[e := Group(if en.autoClear then Without(bits, en.mask) else bits)]
        && u.log == if en.autoClear then v.log + [Consumed(en.group, t, en.mask, bits)] else v.log)
    && u.k.lists[2 * e] == RemoveAt(v.k.lists[2 * e], i)
    && u.k.tasks[t].on.None?
    && forall x :: 0 <= x < |v.pcs| ==>
         u.k.tasks[x].timedOut == v.k.tasks[x].timedOut && (x != t ==> u.k.tasks[x].on == v.k.tasks[x].on)
  }

  lemma SweptUnmet(v: Sys, u: Sys, e: nat, i: nat, t: nat, p: nat, x: nat)
    requires SweepsOne(v, u, e, i, t, p) && x < |v.pcs|
    requires Unmet(v, x) || x == t
    ensures Unmet(u, x)
  {
    hide Met, Without;
    if x != t && v.pool[p].value.autoClear {
      UnmetStays(v, u, e, v.pool[p].value.mask, x);
    }
  }

  lemma SweptOne(v: Sys, u: Sys, e: nat, i: nat, t: nat, p: nat)
    requires SweepsOne(v, u, e, i, t, p) && SweepOk(v, e, i)
    requires Awaiting(v.pcs[t]) && v.pcs[t].slot == p && v.pcs[t].op.e == e
    ensures SweepOk(u, e, i)
  {
    hide Met, Uses, Without, Has, IsBit;
    assert SlotOk(v, t);
    forall x | 0 <= x < |u.pcs| ensures SlotOk(u, x) && (u.k.tasks[x].on == Some(2 * e) || Unmet(u, x)) {
      assert SlotOk(v, x);
      if x == t || v.k.tasks[x].on != Some(2 * e) {
        SweptUnmet(v, u, e, i, t, p, x);
      }
    }
    forall j | 0 <= j < i && j < |u.k.lists[2 * e]|
      ensures u.k.lists[2 * e][j] < |u.pcs| && Unmet(u, u.k.lists[2 * e][j])
    {
      assert u.k.lists[2 * e][j] == v.k.lists[2 * e][j];
      SweptUnmet(v, u, e, i, t, p, v.k.lists[2 * e][j]);
    }
    if v.pool[p].value.autoClear {
      ConsumedUses(v, u, e, t, v.pool[p].value.mask);
    }
  }

  /** A wake-up of the sweep keeps what the sweep needs. */
  lemma SweepWakes(s: Sys, w: Swept, e: nat, i: nat)
    requires e < |s.objs| && s.objs[e].Group? && SysInv(Embed(s, w, e)) && SweepOk(Embed(s, w, e), e, i)
    requires i < |w.k.lists[2 * e]| && Satisfied(w, 2 * e, i)
    ensures Shaped(w.k) && SweepOk(Embed(s, SweepWake(w, 2 * e, i), e), e, i)
  {
    hide Met, Uses, PcOk, WakersDiffer, SweepWake, Without, Has, IsBit;
    var v := Embed(s, w, e);
    var u := Embed(s, SweepWake(w, 2 * e, i), e);
    var t := w.k.lists[2 * e][i];
    ListedAwaits(v, e, i);
    assert SlotOk(v, t);
    FindsOwnSlot(v, t);
    SweepWakeEffect(w, 2 * e, i);
    SweepWakeData(w, e, i, v.pcs[t].slot);
    SweptOne(v, u, e, i, t, v.pcs[t].slot);
  }

  lemma SweepWakeData(w: Swept, e: nat, i: nat, p: nat)
    requires Shaped(w.k) && 2 * e < |w.k.lists| && i < |w.k.lists[2 * e]| && Satisfied(w, 2 * e, i)
    requires p == FindSlot(w.pool, w.k.lists[2 * e][i])
    ensures var r, en, t := SweepWake(w, 2 * e, i), w.pool[p].value, w.k.lists[2 * e][i];
      && r.pool == w.pool[p := Some(en.(observed := w.bits))]
      && Met(w.bits, en.mask, en.mode)
      && r.bits == (if en.autoClear then Without(w.bits, en.mask) else w.bits)
      && r.log == (if en.autoClear then w.log + [Consumed(en.group, t, en.mask, w.bits)] else w.log)
  {
    hide Wake;
  }

  /** One pass suffices: taking flags away never satisfies a waiter that was passed over. */
  lemma {:induction false} SweepCompletes(s: Sys, w: Swept, e: nat, i: nat)
    requires e < |s.objs| && s.objs[e].Group? && SysInv(Embed(s, w, e)) && SweepOk(Embed(s, w, e), e, i)
    ensures Shaped(w.k) && EventInv(Embed(s, Sweep(w, 2 * e, i), e))
    decreases |w.k.lists[2 * e]| - i
  {
    hide SweepWake, Satisfied, PcOk, Inv, WakersDiffer, SweepOk, EventInv;
    if i < |w.k.lists[2 * e]| {
      if Satisfied(w, 2 * e, i) {
        SweepWakes(s, w, e, i);
        SweepWakeCore(s, w, e, i);
        SweepCompletes(s, SweepWake(w, 2 * e, i), e, i);
      } else {
        SweepPasses(s, w, e, i);
        SweepCompletes(s, w, e, i + 1);
      }
    } else {
      SweepEnds(Embed(s, w, e), e, i);
    }
  }

  lemma SweepEnds(v: Sys, e: nat, i: nat)
    requires SysInv(v) && e < |v.objs| && v.objs[e].Group? && SweepOk(v, e, i) && i >= |v.k.lists[2 * e]|
    ensures EventInv(v)
  {
    hide Met, Uses, PcOk, WakersDiffer;
    forall t | 0 <= t < |v.pcs| ensures Unmet(v, t) {
      if v.k.tasks[t].on == Some(2 * e) {
        OnList(v.k, t, 2 * e);
        var j :| 0 <= j < |v.k.lists[2 * e]| && v.k.lists[2 * e][j] == t;
      }
    }
  }

  lemma UsesOfSet(log: seq<Note>, g: nat, b: bv32, e: nat, bits: bv32)
    ensures Uses(log + [WasSet(e, bits)], g, b) == if g == e && Has(bits, b) then 0 else Uses(log, g, b)
  {
    assert (log + [WasSet(e, bits)])[..|log|] == log;
  }

  lemma SetUses(s: Sys, r: Sys, e: nat, bits: bv32)
    requires UsesOk(s) && e < |s.objs| && s.objs[e].Group?
    requires r.objs == s.objs[e := Group(With(s.objs[e].bits, bits))] && r.log == s.log + [WasSet(e, bits)]
    ensures UsesOk(r)
  {
    hide Uses, Has, IsBit, With;
    forall g: nat, b: bv32 | g < |r.objs| && r.objs[g].Group? && IsBit(b)
      ensures Uses(r.log, g, b) <= if Has(r.objs[g].bits, b) then 0 else 1
    {
      UsesOfSet(s.log, g, b, e, bits);
      if g == e && Has(r.objs[g].bits, b) && !Has(bits, b) {
        WithHas(s.objs[e].bits, bits, b);
      }
    }
  }

  lemma StartUses(s: Sys, e: nat, bits: bv32)
    requires EventInv(s) && e < |s.objs| && s.objs[e].Group?
    ensures UsesOk(Embed(s, SweepStart(s, e, bits), e))
  {
    hide Uses, With;
    SetUses(s, Embed(s, SweepStart(s, e, bits), e), e, bits);
  }

  lemma SetFlagsEvents(s: Sys, e: nat, bits: bv32)
    requires SysInv(s) && EventInv(s) && Enabled(s, SetBits(e, bits))
    ensures EventInv(SetFlags(s, e, bits))
  {
    hide Sweep, PcOk, Inv, WakersDiffer, EventInv, SweepOk, With;
    var w := SweepStart(s, e, bits);
    StartCore(s, e, bits);
    StartUses(s, e, bits);
    SweepBegins(s, Embed(s, w, e), e);
    SweepCompletes(s, w, e, 0);
    var v := Embed(s, Sweep(w, 2 * e, 0), e);
    FlagEvents(v, SetFlags(s, e, bits).lowered);
  }

  lemma SweepBegins(s: Sys, v: Sys, e: nat)
    requires SysInv(s) && EventInv(s) && e < |s.objs| && s.objs[e].Group?
    requires |v.objs| == |s.objs| && v == s.(objs := s.objs[e := v.objs[e]], log := v.log) && v.objs[e].Group? && UsesOk(v)
    ensures SweepOk(v, e, 0)
  {
    hide Met, Uses, WakersDiffer;
    forall t | 0 <= t < |v.pcs| ensures SlotOk(v, t) && (v.k.tasks[t].on == Some(2 * e) || Unmet(v, t)) {
      assert SlotOk(s, t) && Unmet(s, t) && PcOk(s, t);
    }
  }

  lemma FlagEvents(s: Sys, flag: bool)
    requires EventInv(s)
    ensures EventInv(s.(lowered := flag))
  {
    hide Met, Uses;
    ElsewhereEvents(s, s.(lowered := flag));
  }

  // ---- All the other actions ----

  predicate AwaitPc(pc: Pc) {
    (pc.Called? || pc.Asleep?) && pc.op.Await?
  }

  predicate EventAction(s: Sys, a: Action)
    requires s.k.current < |s.pcs|
  {
    a.SetBits? || a.ClearBits? || (a.Continue? && AwaitPc(s.pcs[s.k.current]))
  }

  lemma AdvanceGroups(s: Sys)
    requires Shape(s) && TaskRuns(s) && !AwaitPc(s.pcs[s.k.current])
    ensures SameGroups(s, Advance(s)) && !Awaiting(Advance(s).pcs[s.k.current])
  {
    hide Wake, TryOp, Block, Inherit;
    assert PcFits(s, s.k.current);
    if s.pcs[s.k.current].Called? || s.pcs[s.k.current].Asleep? {
      TryGroups(s, s.pcs[s.k.current].op);
    }
  }

  lemma TryGroups(s: Sys, op: Op)
    requires Shape(s) && TaskRuns(s) && Fits(s.objs, op) && !op.Await?
    ensures SameGroups(s, TryOp(s, op)) && !Awaiting(TryOp(s, op).pcs[s.k.current])
  {
    hide PopWake, Block;
  }

  lemma OtherGroups(s: Sys, a: Action)
    requires Shape(s) && Enabled(s, a) && !EventAction(s, a)
    ensures SameGroups(s, Apply(s, a))
    ensures !Outside(a) ==> !Awaiting(Apply(s, a).pcs[s.k.current])
  {
    hide Advance, PopWake, UnlockKernel, TickN, Delay, Yield;
    if a.Continue? {
      AdvanceGroups(s);
    }
  }

  /** The list an action pops from belongs to a semaphore or a queue. */
  lemma PopsNoAwaiter(s: Sys, a: Action, t: nat)
    requires SysInv(s) && Enabled(s, a) && !MutexAction(s, a) && !EventAction(s, a) && t < |s.pcs|
    requires Awaiting(s.pcs[t]) && s.k.tasks[t].on.Some?
    ensures s.k.tasks[t].on.value != PoppedList(s, a)
  {
    assert PcOk(s, t) && PcFits(s, t);
    assert a.Continue? ==> PcFits(s, s.k.current);
  }

  lemma FrameAwaiters(s: Sys, a: Action, r: Sys)
    requires SysInv(s) && Enabled(s, a) && !MutexAction(s, a) && !EventAction(s, a)
    requires Frame(s, r, Actor(s, a), PoppedList(s, a)) && SysInv(r)
    requires !Outside(a) ==> !Awaiting(r.pcs[s.k.current])
    requires Outside(a) ==> r.pcs == s.pcs
    ensures AwaitersStay(s, r)
  {
    hide Apply, WakersDiffer, OneRunning;
    forall t | 0 <= t < |s.pcs| && Awaiting(s.pcs[t])
      ensures r.pcs[t] == s.pcs[t]
      ensures r.k.tasks[t].on == s.k.tasks[t].on
        || (r.k.tasks[t].on.None? && s.pcs[t].op.p.Until? && r.k.tasks[t].timedOut)
      ensures s.k.tasks[t].on.None? ==> r.k.tasks[t].timedOut == s.k.tasks[t].timedOut
    {
      NotTheActor(s, a, t);
      assert PcOk(s, t);
      if s.k.tasks[t].on.Some? {
        PopsNoAwaiter(s, a, t);
      }
    }
  }

  lemma NotTheActor(s: Sys, a: Action, t: nat)
    requires SysInv(s) && Enabled(s, a) && !EventAction(s, a) && t < |s.pcs| && Awaiting(s.pcs[t])
    ensures t != Actor(s, a)
  {
  }

  lemma OutsidePcs(s: Sys, a: Action)
    requires Shape(s) && Enabled(s, a) && Outside(a)
    ensures Apply(s, a).pcs == s.pcs
  {
    hide Sweep, TickN, PopWake;
  }

  lemma NonMutexEvents(s: Sys, a: Action)
    requires SysInv(s) && EventInv(s) && Enabled(s, a) && !MutexAction(s, a) && !EventAction(s, a)
    ensures EventInv(Apply(s, a))
  {
    hide Apply, Frame, EventInv, PcOk, Inv, WakersDiffer;
    NonMutexFrame(s, a);
    OtherGroups(s, a);
    if Outside(a) {
      OutsidePcs(s, a);
    }
    FrameAwaiters(s, a, Apply(s, a));
    ElsewhereEvents(s, Apply(s, a));
  }

  /** Mutex actions leave the awaiting tasks of event groups alone. */
  lemma UnlockEvents(s: Sys, m: nat)
    requires SysInv(s) && EventInv(s) && Enabled(s, Unlock(m))
    ensures EventInv(UnlockBy(s, m))
  {
    hide EventInv, UnlockBy, WakersDiffer;
    var r := UnlockBy(s, m);
    UnlockLetsGo(s, m);
    OtherGroups(s, Unlock(m));
    forall t | 0 <= t < |s.pcs| && Awaiting(s.pcs[t]) ensures s.k.tasks[t].on != Some(2 * m) {
      assert PcOk(s, t) && PcFits(s, t);
    }
    ElsewhereEvents(s, r);
  }

  lemma LockEvents(s: Sys)
    requires SysInv(s) && EventInv(s) && TaskRuns(s) && LockPc(s.pcs[s.k.current])
    ensures EventInv(Advance(s))
  {
    hide EventInv, PcOk, Inv, WakersDiffer, LockSlow;
    var c, r := s.k.current, Advance(s);
    assert PcFits(s, c);
    AdvanceGroups(s);
    if s.pcs[c].Slow? {
      LockSlowEvents(s, s.pcs[c].op);
    } else {
      ElsewhereEvents(s, r);
    }
  }

  lemma LockSlowEvents(s: Sys, op: Op)
    requires SysInv(s) && EventInv(s) && TaskRuns(s) && s.pcs[s.k.current] == Slow(op) && Fits(s.objs, op) && op.Lock?
    requires SameGroups(s, LockSlow(s, op)) && !Awaiting(LockSlow(s, op).pcs[s.k.current])
    ensures EventInv(LockSlow(s, op))
  {
    hide EventInv, PcOk, Inv, WakersDiffer, Block, Inherit;
    if !Passed(s, op.p) && s.objs[op.m].owner.Some? {
      LockBlocks(s, op);
    }
    ElsewhereEvents(s, LockSlow(s, op));
  }

  lemma StepEvents(s: Sys, a: Action)
    requires SysInv(s) && EventInv(s) && Enabled(s, a)
    ensures EventInv(Apply(s, a))
  {
    hide EventInv, Advance, UnlockBy, SetFlags, PcOk, Inv, WakersDiffer;
    if a.SetBits? {
      SetFlagsEvents(s, a.e, a.bits);
    } else if a.ClearBits? {
      FewerFlags(s, Apply(s, a), a.e, a.bits);
    } else if a.Unlock? {
      UnlockEvents(s, a.m);
    } else if a.Continue? && LockPc(s.pcs[s.k.current]) {
      LockEvents(s);
    } else if a.Continue? && AwaitPc(s.pcs[s.k.current]) {
      AwaitContinueEvents(s);
    } else {
      NonMutexEvents(s, a);
    }
  }

  lemma AwaitContinueEvents(s: Sys)
    requires SysInv(s) && EventInv(s) && TaskRuns(s) && AwaitPc(s.pcs[s.k.current])
    ensures EventInv(Advance(s))
  {
    hide EventInv, PcOk, Inv, WakersDiffer, AwaitTry, Resume;
    assert PcFits(s, s.k.current);
    match s.pcs[s.k.current] {
      case Called(op) => AwaitTryEvents(s, op);
      case Asleep(op, slot) => AwaitResumes(s, op, slot);
      case _ => assert false;
    }
  }

  lemma InitEvents(s: Sys)
    requires Init(s)
    ensures EventInv(s)
  {
    hide Met;
  }

  lemma {:induction false} RunEvents(tr: seq<Sys>, acts: seq<Action>, i: nat)
    requires IsRun(tr, acts) && Init(tr[0]) && i < |tr|
    ensures SysInv(tr[i]) && EventInv(tr[i])
  {
    hide Apply, EventInv;
    RunInv(tr, acts, i);
    if i == 0 {
      InitEvents(tr[0]);
    } else {
      RunEvents(tr, acts, i - 1);
      StepEvents(tr[i - 1], acts[i - 1]);
    }
  }
}
