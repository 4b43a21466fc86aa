/** Semaphores conserve their tokens over every run. */
module Semaphores {
  import opened Selection
  import opened WaitQueue
  import opened Kernel
  import opened KernelLemmas
  import opened Effects
  import opened Primitives
  import opened System
  import opened Integrity
  import opened Runs
  import opened Channels

  /** The tokens it started with. */
  function Start(x: Object): int
    requires x.Semaphore?
  {
    x.count + x.taken - x.given
  }

  ghost predicate Conserved(a: Object, b: Object) {
    a.Semaphore? ==> b.Semaphore? && b.max == a.max && Start(b) == Start(a)
  }

  lemma TryConserves(s: Sys, op: Op)
    requires Shape(s) && TaskRuns(s) && Fits(s.objs, op)
    ensures forall o :: 0 <= o < |s.objs| ==> Conserved(s.objs[o], TryOp(s, op).objs[o])
  {
    hide PopWake, Block;
  }

  lemma AdvanceConserves(s: Sys)
    requires Shape(s) && TaskRuns(s)
    ensures forall o :: 0 <= o < |s.objs| ==> Conserved(s.objs[o], Advance(s).objs[o])
  {
    hide TryOp, Wake, Block;
    assert PcFits(s, s.k.current);
    if s.pcs[s.k.current].Called? || s.pcs[s.k.current].Asleep? {
      TryConserves(s, s.pcs[s.k.current].op);
    }
  }

  lemma StepConserves(s: Sys, a: Action)
    requires Shape(s) && Enabled(s, a)
    ensures forall o :: 0 <= o < |s.objs| ==> Conserved(s.objs[o], Apply(s, a).objs[o])
  {
    hide Advance, PopWake, UnlockKernel, Sweep, TickN, Delay, Yield;
    if a.Continue? {
      AdvanceConserves(s);
    }
  }

  lemma {:induction false} RunConserves(tr: seq<Sys>, acts: seq<Action>, i: nat)
    requires IsRun(tr, acts) && i < |tr|
    ensures |tr[i].objs| == |tr[0].objs|
    ensures forall o :: 0 <= o < |tr[0].objs| ==> Conserved(tr[0].objs[o], tr[i].objs[o])
  {
    hide Apply, Conserved;
    if i == 0 {
      forall o | 0 <= o < |tr[0].objs| ensures Conserved(tr[0].objs[o], tr[0].objs[o]) {
        SelfConserved(tr[0].objs[o]);
      }
    } else {
      RunConserves(tr, acts, i - 1);
      StepConserves(tr[i - 1], acts[i - 1]);
      forall o | 0 <= o < |tr[0].objs| ensures Conserved(tr[0].objs[o], tr[i].objs[o]) {
        ConservedTwice(tr[0].objs[o], tr[i - 1].objs[o], tr[i].objs[o]);
      }
    }
  }

  lemma SelfConserved(a: Object)
    ensures Conserved(a, a)
  {
  }

  lemma ConservedTwice(a: Object, b: Object, c: Object)
    requires Conserved(a, b) && Conserved(b, c)
    ensures Conserved(a, c)
  {
  }

  /** The count stays between 0 and the maximum, is the initial count plus effective gives
      minus takes, and covers no more than the woken tasks while others sleep. */
  lemma SemaphoreAccounts(tr: seq<Sys>, acts: seq<Action>, i: nat, x: nat)
    requires IsRun(tr, acts) && Init(tr[0]) && i < |tr| && x < |tr[0].objs| && tr[0].objs[x].Semaphore?
    ensures Shape(tr[i]) && x < |tr[i].objs| && tr[i].objs[x].Semaphore?
    ensures 0 <= tr[i].objs[x].count <= tr[i].objs[x].max == tr[0].objs[x].max
    ensures tr[i].objs[x].count == tr[0].objs[x].count + tr[i].objs[x].given - tr[i].objs[x].taken
    ensures tr[i].k.lists[2 * x] != [] ==> tr[i].objs[x].count <= |Tokens(tr[i], 2 * x)|
  {
    hide Apply;
    RunKeeps(tr, acts, i);
    RunConserves(tr, acts, i);
    assert match tr[0].objs[x] case Semaphore(_, _, given, taken) => given == 0 && taken == 0 case _ => true;
    assert CountOk(tr[i].objs[x]) && ChannelOk(tr[i], 2 * x) && ListOk(tr[i].k, 2 * x);
    if tr[i].k.lists[2 * x] != [] {
      assert tr[i].k.tasks[tr[i].k.lists[2 * x][0]].on == Some(2 * x);
    }
  }

  /** `sem_give` adds one token up to the maximum, and the best and longest waiting task, if
      anybody waits, leaves the list and can run; nobody else moves. */
  lemma GiveWakesFirst(s: Sys, x: nat)
    requires SysInv(s) && Enabled(s, IsrGive(x))
    ensures var r, l := Apply(s, IsrGive(x)), 2 * x;
      && r.objs[x].Semaphore? && r.objs[x].count == (if s.objs[x].count < s.objs[x].max then s.objs[x].count + 1 else s.objs[x].count)
      && r.k.lists[l] == (if s.k.lists[l] == [] then [] else s.k.lists[l][1..])
      && (s.k.lists[l] != [] ==>
            && s.k.lists[l][0] < |r.k.tasks|
            && !r.k.tasks[s.k.lists[l][0]].state.Blocked? && r.k.tasks[s.k.lists[l][0]].on.None?)
      && (forall t :: 0 <= t < |s.pcs| && (s.k.lists[l] == [] || t != s.k.lists[l][0]) ==>
            r.k.tasks[t].state.Blocked? == s.k.tasks[t].state.Blocked? && r.k.tasks[t].on == s.k.tasks[t].on)
  {
    hide PopWake;
    LinkedShaped(s.k);
    if s.k.lists[2 * x] == [] {
      NobodyToWake(s.k, 2 * x);
    } else {
      PopWakeEffect(s.k, 2 * x);
    }
  }

  lemma NobodyToWake(k: State, l: nat)
    requires Bounds(k) && l < |k.lists| && InRange(k.lists[l], |k.tasks|) && k.lists[l] == []
    ensures PopWake(k, l) == k
  {
  }

  /** A take by a task or an interrupt uses up exactly one token, and there was one. */
  lemma TakeUsesOne(s: Sys, op: Op)
    requires Shape(s) && TaskRuns(s) && Fits(s.objs, op) && op.Take?
    ensures var r := TryOp(s, op);
      && r.objs[op.x].Semaphore?
      && r.objs[op.x].count == (if s.objs[op.x].count > 0 then s.objs[op.x].count - 1 else s.objs[op.x].count)
      && (op.p.Forever? ==> (r.pcs[s.k.current].User? <==> r.objs[op.x].count < s.objs[op.x].count))
  {
    hide Block;
  }
}
