/** No lost wake-up, for mutexes, semaphores and both sides of queues at once: while
    somebody sleeps on a list, what the list waits for (the free mutex, tokens, items,
    free slots) does not exceed the number of tasks popped from it that have not retried. */
module Channels {
  import opened Selection
  import opened WaitQueue
  import opened Kernel
  import opened KernelLemmas
  import opened Ticks
  import opened Effects
  import opened EventBits
  import opened Primitives
  import opened System
  import opened Integrity
  import opened IntegritySteps
  import opened Runs

  /** What an object has for the sleepers of its first list, or of its second. */
  function LevelOf(x: Object, second: bool): int {
    match x
    case Mutex(owner, _, _, _, _) => if !second && owner.None? then 1 else 0
    case Semaphore(count, _, _, _) => if second then 0 else count
    case Queue(items, capacity) => if second then capacity - |items| else |items|
    case Group(_) => 0
  }

  function Level(s: Sys, l: nat): int
    requires |s.k.lists| == 2 * |s.objs| && l < |s.k.lists|
  {
    LevelOf(s.objs[l / 2], l % 2 == 1)
  }

  /** Task `t` was popped from list `l`, is awake or being woken, and has not retried. */
  ghost predicate IsToken(s: Sys, t: int, l: nat)
    requires |s.pcs| == |s.k.tasks|
  {
    && 0 <= t < |s.pcs|
    && s.pcs[t].Asleep? && ListOf(s.pcs[t].op) == l
    && s.k.tasks[t].on.None?
    && !(s.pcs[t].op.p.Until? && s.k.tasks[t].timedOut)
  }

  ghost function Tokens(s: Sys, l: nat): set<int>
    requires |s.pcs| == |s.k.tasks|
  {
    set t | 0 <= t < |s.pcs| && IsToken(s, t, l)
  }

  ghost predicate Sleeping(s: Sys, l: nat) {
    exists t :: 0 <= t < |s.k.tasks| && s.k.tasks[t].on == Some(l)
  }

  ghost predicate ChannelOk(s: Sys, l: nat)
    requires Shape(s) && l < |s.k.lists|
  {
    Sleeping(s, l) ==> Level(s, l) <= |Tokens(s, l)|
  }

  predicate CountOk(x: Object) {
    && (x.Semaphore? ==> 0 <= x.count <= x.max)
    && (x.Queue? ==> |x.items| <= x.capacity)
  }

  /** Counts stay within their limits. */
  ghost predicate DataOk(s: Sys) {
    forall o :: 0 <= o < |s.objs| ==> CountOk(s.objs[o])
  }

  ghost predicate NoLostWakeUp(s: Sys) {
    Shape(s) && DataOk(s) && forall l :: 0 <= l < |s.k.lists| ==> ChannelOk(s, l)
  }

  // ---- How one list fares ----

  /** But for task `c`, tasks only leave lists, and the tokens stay tokens. */
  ghost predicate Calm(s: Sys, r: Sys, c: nat) {
    && Shape(s) && Shape(r) && |r.pcs| == |s.pcs| && |r.objs| == |s.objs|
    && forall t :: 0 <= t < |s.pcs| && t != c ==>
         && r.pcs[t] == s.pcs[t]
         && (r.k.tasks[t].on == s.k.tasks[t].on || r.k.tasks[t].on.None?)
         && (s.pcs[t].Asleep? && s.k.tasks[t].on.None? ==> r.k.tasks[t].timedOut == s.k.tasks[t].timedOut)
  }

  lemma Kept(s: Sys, r: Sys, c: nat, l: nat)
    requires Calm(s, r, c) && c < |s.pcs| && l < |s.k.lists| && ChannelOk(s, l)
    requires !IsToken(s, c, l) || IsToken(r, c, l)
    requires r.k.tasks[c].on == Some(l) ==> s.k.tasks[c].on == Some(l)
    requires Level(r, l) <= Level(s, l)
    ensures ChannelOk(r, l)
  {
    SubsetSize(Tokens(s, l), Tokens(r, l));
  }

  lemma Spent(s: Sys, r: Sys, c: nat, l: nat)
    requires Calm(s, r, c) && c < |s.pcs| && l < |s.k.lists| && ChannelOk(s, l)
    requires r.k.tasks[c].on != Some(l)
    requires Level(r, l) < Level(s, l)
    ensures ChannelOk(r, l)
  {
    SubsetSize(Tokens(s, l) - {c}, Tokens(r, l));
  }

  lemma Refilled(s: Sys, r: Sys, c: nat, l: nat, w: nat)
    requires Calm(s, r, c) && c < |s.pcs| && w < |s.pcs| && l < |s.k.lists| && ChannelOk(s, l)
    requires !IsToken(s, c, l) && r.k.tasks[c].on != Some(l)
    requires s.k.tasks[w].on == Some(l) && IsToken(r, w, l)
    requires Level(r, l) <= Level(s, l) + 1
    ensures ChannelOk(r, l)
  {
    SubsetSize(Tokens(s, l) + {w}, Tokens(r, l));
  }

  /** Every list whose level does not rise, when `c` neither was a token nor joins a list. */
  lemma AllKept(s: Sys, r: Sys, c: nat)
    requires NoLostWakeUp(s) && Calm(s, r, c) && c < |s.pcs| && DataOk(r)
    requires forall l :: 0 <= l < |s.k.lists| ==> !IsToken(s, c, l) || IsToken(r, c, l)
    requires r.k.tasks[c].on.None? || r.k.tasks[c].on == s.k.tasks[c].on
    requires forall l :: 0 <= l < |s.k.lists| ==> Level(r, l) <= Level(s, l)
    ensures NoLostWakeUp(r)
  {
    forall l | 0 <= l < |r.k.lists| ensures ChannelOk(r, l) {
      Kept(s, r, c, l);
    }
  }

  /** Only object `o` changes, on the way from `s` to `r` by task `c`. */
  ghost predicate OneObject(s: Sys, r: Sys, o: nat) {
    o < |s.objs| && |r.objs| == |s.objs| && r.objs == s.objs[o := r.objs[o]]
  }

  /** The lists of other objects do not notice. */
  lemma OtherLists(s: Sys, r: Sys, c: nat, o: nat, l: nat)
    requires NoLostWakeUp(s) && Calm(s, r, c) && c < |s.pcs| && OneObject(s, r, o)
    requires l < |s.k.lists| && l / 2 != o
    requires !IsToken(s, c, l)
    requires r.k.tasks[c].on != Some(l)
    ensures ChannelOk(r, l)
  {
    Kept(s, r, c, l);
  }

  /** The waiter popped from `l` becomes a token of `l`. */
  lemma PoppedIsToken(s: Sys, r: Sys, w: nat, l: nat)
    requires SysInv(s) && Shape(r) && |r.pcs| == |s.pcs| && w < |s.pcs|
    requires s.k.tasks[w].on == Some(l) && r.pcs[w] == s.pcs[w]
    requires r.k.tasks[w].on.None? && r.k.tasks[w].timedOut == s.k.tasks[w].timedOut
    ensures IsToken(r, w, l)
  {
    assert PcOk(s, w) && TaskOk(s.k, w);
  }

  lemma OnlyOwnToken(s: Sys, c: nat, l: nat)
    requires Shape(s) && c < |s.pcs| && IsToken(s, c, l)
    ensures s.pcs[c].Asleep? && l == ListOf(s.pcs[c].op)
  {
  }

  // ---- Retrying ----

  lemma BlockCalm(s: Sys, r: Sys, op: Op)
    requires SysInv(s) && Shape(r) && |r.objs| == |s.objs| && ListOf(op) < |s.k.lists|
    requires r.k == Block(s.k, ListOf(op), ArmFor(s, op))
    requires r.pcs == s.pcs[s.k.current := r.pcs[s.k.current]]
    ensures Calm(s, r, s.k.current)
    ensures r.k.tasks[s.k.current].on == Some(ListOf(op))
  {
    hide Block;
    BlockEffect(s.k, ListOf(op), ArmFor(s, op));
  }

  lemma NobodyOn(s: Sys, l: nat)
    requires SysInv(s) && l < |s.k.lists| && s.k.lists[l] == []
    ensures !Sleeping(s, l)
  {
    forall t | 0 <= t < |s.pcs| ensures s.k.tasks[t].on != Some(l) {
      OnList(s.k, t, l);
    }
  }

  /** The head of `l` leaves the list, woken or not, and the running task moves on. */
  lemma HeadLeaves(s: Sys, l: nat, r: Sys)
    requires SysInv(s) && TaskRuns(s) && l < |s.k.lists| && s.k.lists[l] != []
    requires Shape(r) && |r.objs| == |s.objs| && |r.pcs| == |s.pcs|
    requires s.k.lists[l][0] < |s.pcs| && s.k.tasks[s.k.lists[l][0]].on == Some(l)
    requires r.pcs == s.pcs[s.k.current := r.pcs[s.k.current]]
    requires forall t :: 0 <= t < |s.pcs| ==>
      && r.k.tasks[t].timedOut == s.k.tasks[t].timedOut
      && r.k.tasks[t].on == if t == s.k.lists[l][0] then None else s.k.tasks[t].on
    ensures Calm(s, r, s.k.current) && r.k.tasks[s.k.current].on.None?
    ensures IsToken(r, s.k.lists[l][0], l)
  {
    RunnerAwake(s);
    PoppedIsToken(s, r, s.k.lists[l][0], l);
  }

  /** `r` is `k` with the head of list `l` off the list, as far as waiting goes. */
  ghost predicate HeadOff(k: State, l: nat, r: State)
    requires l < |k.lists| && k.lists[l] != []
  {
    && |r.tasks| == |k.tasks| && r.current == k.current
    && forall t :: 0 <= t < |k.tasks| ==>
         && r.tasks[t].timedOut == k.tasks[t].timedOut
         && r.tasks[t].on == if t == k.lists[l][0] then None else k.tasks[t].on
  }

  lemma PopWakeHeadOff(k: State, l: nat)
    requires Linked(k) && l < |k.lists| && k.lists[l] != []
    ensures InRange(k.lists[l], |k.tasks|) && HeadOff(k, l, PopWake(k, l))
    ensures k.lists[l][0] < |k.tasks| && k.tasks[k.lists[l][0]].on == Some(l) && HeadOff(k, l, Pop(k, l))
  {
    hide PopWake;
    PopWakeEffect(k, l);
  }

  lemma PopWakeWaits(k: State, l: nat)
    requires Linked(k) && l < |k.lists|
    ensures InRange(k.lists[l], |k.tasks|)
    ensures if k.lists[l] == [] then SameWaits(k, PopWake(k, l)) else HeadOff(k, l, PopWake(k, l))
  {
    if k.lists[l] == [] {
      PopWakeNone(k, l);
    } else {
      PopWakeHeadOff(k, l);
    }
  }

  lemma TidyHeadOff(k: State, l: nat, m: State, c: nat)
    requires l < |k.lists| && k.lists[l] != [] && HeadOff(k, l, m) && c < |k.tasks|
    ensures HeadOff(k, l, SetTask(m, c, m.tasks[c].(head := None)))
  {
  }

  lemma PopThenWakeHeadOff(s: Sys, l: nat, op: Op)
    requires Shape(s) && Linked(s.k) && l < |s.k.lists| && s.k.lists[l] != []
    ensures HeadOff(s.k, l, PopThenWake(s, l, op).k)
    ensures PopThenWake(s, l, op).pcs == s.pcs[s.k.current := PopThenWake(s, l, op).pcs[s.k.current]]
    ensures s.k.lists[l][0] < |s.pcs| && s.k.tasks[s.k.lists[l][0]].on == Some(l)
  {
    hide PopWake, HeadOff;
    PopWakeHeadOff(s.k, l);
    TidyHeadOff(s.k, l, PopWake(s.k, l), s.k.current);
  }

  lemma PopThenWakeCalm(s: Sys, l: nat, op: Op, r: Sys)
    requires SysInv(s) && TaskRuns(s) && l < |s.k.lists| && Shape(r) && |r.objs| == |s.objs|
    requires r == PopThenWake(s, l, op).(objs := r.objs)
    ensures Calm(s, r, s.k.current) && r.k.tasks[s.k.current].on.None?
    ensures s.k.lists[l] == [] ==> !Sleeping(r, l)
    ensures s.k.lists[l] != [] ==> var w := s.k.lists[l][0];
      w < |s.pcs| && s.k.tasks[w].on == Some(l) && IsToken(r, w, l)
  {
    if s.k.lists[l] == [] {
      MoveCalm(s, r);
      NobodyOn(s, l);
    } else {
      hide PopThenWake, IsToken, Calm, PcOk, WakersDiffer, OneRunning;
      PopThenWakeHeadOff(s, l, op);
      HeadLeaves(s, l, r);
    }
  }

  /** A queue operation that goes through takes from one side and gives to the other. */
  lemma QueueMoves(s: Sys, r: Sys, op: Op, from: nat, to: nat)
    requires SysInv(s) && NoLostWakeUp(s) && TaskRuns(s) && Shape(r)
    requires s.pcs[s.k.current].Asleep? ==> ListOf(s.pcs[s.k.current].op) == from
    requires from < |s.k.lists| && to < |s.k.lists| && from != to && from / 2 == to / 2
    requires OneObject(s, r, to / 2) && CountOk(r.objs[to / 2]) && r == PopThenWake(s, to, op).(objs := r.objs)
    requires LevelOf(r.objs[from / 2], from % 2 == 1) < LevelOf(s.objs[from / 2], from % 2 == 1)
    requires LevelOf(r.objs[to / 2], to % 2 == 1) <= LevelOf(s.objs[to / 2], to % 2 == 1) + 1
    ensures NoLostWakeUp(r)
  {
    hide PopThenWake, SysInv, LevelOf, CountOk;
    var c := s.k.current;
    PopThenWakeCalm(s, to, op, r);
    forall l | 0 <= l < |r.k.lists| ensures ChannelOk(r, l) {
      if l == from {
        Spent(s, r, c, l);
      } else if l == to {
        if s.k.lists[to] != [] {
          Refilled(s, r, c, l, s.k.lists[to][0]);
        }
      } else {
        OtherLists(s, r, c, to / 2, l);
      }
    }
  }

  /** A retry that fails finds nothing, and blocks or gives up. */
  lemma NothingThere(s: Sys, r: Sys, l: nat)
    requires SysInv(s) && NoLostWakeUp(s) && TaskRuns(s) && Shape(r)
    requires Calm(s, r, s.k.current) && l < |s.k.lists| && Level(r, l) <= 0 && DataOk(r)
    requires s.pcs[s.k.current].Asleep? ==> ListOf(s.pcs[s.k.current].op) == l
    requires r.k.tasks[s.k.current].on.None? || r.k.tasks[s.k.current].on == Some(l)
    requires forall m :: 0 <= m < |s.k.lists| ==> m == l || Level(r, m) <= Level(s, m)
    ensures NoLostWakeUp(r)
  {
    forall m | 0 <= m < |r.k.lists| ensures ChannelOk(r, m) {
      if m != l {
        Kept(s, r, s.k.current, m);
      }
    }
  }

  /** The running task only goes elsewhere. */
  lemma MoveCalm(s: Sys, r: Sys)
    requires SysInv(s) && TaskRuns(s) && Shape(r) && |r.objs| == |s.objs| && |r.pcs| == |s.pcs|
    requires r.pcs == s.pcs[s.k.current := r.pcs[s.k.current]]
    requires forall t :: 0 <= t < |s.pcs| && t != s.k.current ==> r.k.tasks[t] == s.k.tasks[t]
    requires r.k.tasks[s.k.current].on == s.k.tasks[s.k.current].on
    ensures Calm(s, r, s.k.current) && r.k.tasks[s.k.current].on.None?
  {
    RunnerAwake(s);
  }

  lemma SendGoes(s: Sys, op: Op)
    requires SysInv(s) && NoLostWakeUp(s) && TaskRuns(s) && Fits(s.objs, op) && op.Send?
    requires s.pcs[s.k.current].Asleep? ==> s.pcs[s.k.current].op == op
    requires Shape(SendTry(s, op)) && |s.objs[op.q].items| < s.objs[op.q].capacity
    ensures NoLostWakeUp(SendTry(s, op))
  {
    hide PopThenWake, SysInv, ChannelOk;
    QueueMoves(s, SendTry(s, op), op, 2 * op.q + 1, 2 * op.q);
  }

  lemma RecvGoes(s: Sys, op: Op)
    requires SysInv(s) && NoLostWakeUp(s) && TaskRuns(s) && Fits(s.objs, op) && op.Recv?
    requires s.pcs[s.k.current].Asleep? ==> s.pcs[s.k.current].op == op
    requires Shape(RecvTry(s, op)) && |s.objs[op.q].items| > 0
    ensures NoLostWakeUp(RecvTry(s, op))
  {
    hide PopThenWake, SysInv, ChannelOk;
    QueueMoves(s, RecvTry(s, op), op, 2 * op.q, 2 * op.q + 1);
  }

  /** A call that finds level 0 gives up or blocks, and changes no object. */
  lemma Stays(s: Sys, op: Op, r: Sys)
    requires SysInv(s) && NoLostWakeUp(s) && TaskRuns(s) && Fits(s.objs, op) && Shape(r)
    requires s.pcs[s.k.current].Asleep? ==> s.pcs[s.k.current].op == op
    requires r.objs == s.objs && Level(s, ListOf(op)) <= 0 && |r.pcs| == |s.pcs|
    requires r.pcs == s.pcs[s.k.current := r.pcs[s.k.current]]
    requires r.k == s.k || r.k == Block(s.k, ListOf(op), ArmFor(s, op))
    ensures NoLostWakeUp(r)
  {
    hide SysInv, Block, IsToken, Calm;
    if r.k == s.k {
      MoveCalm(s, r);
    } else {
      BlockCalm(s, r, op);
    }
    NothingThere(s, r, ListOf(op));
  }

  lemma SendRecvRetry(s: Sys, op: Op)
    requires SysInv(s) && NoLostWakeUp(s) && TaskRuns(s)
    requires Fits(s.objs, op) && (op.Send? || op.Recv?)
    requires s.pcs[s.k.current].Asleep? ==> s.pcs[s.k.current].op == op
    requires Shape(TryOp(s, op))
    ensures NoLostWakeUp(TryOp(s, op))
  {
    hide PopThenWake, Block, NoLostWakeUp, PcOk, Inv, WakersDiffer;
    var q := s.objs[op.q];
    if op.Send? && |q.items| < q.capacity {
      SendGoes(s, op);
    } else if op.Recv? && |q.items| > 0 {
      RecvGoes(s, op);
    } else {
      Stays(s, op, TryOp(s, op));
    }
  }

  lemma TakeRetry(s: Sys, op: Op)
    requires SysInv(s) && NoLostWakeUp(s) && TaskRuns(s) && Fits(s.objs, op) && op.Take?
    requires s.pcs[s.k.current].Asleep? ==> s.pcs[s.k.current].op == op
    requires Shape(TakeTry(s, op))
    ensures NoLostWakeUp(TakeTry(s, op))
  {
    hide Block, SysInv;
    var c := s.k.current;
    var r := TakeTry(s, op);
    if s.objs[op.x].count > 0 {
      MoveCalm(s, r);
      forall l | 0 <= l < |r.k.lists| ensures ChannelOk(r, l) {
        if l == 2 * op.x {
          Spent(s, r, c, l);
        } else if l / 2 != op.x {
          OtherLists(s, r, c, op.x, l);
        } else {
          Kept(s, r, c, l);
        }
      }
    } else {
      Stays(s, op, r);
    }
  }

  lemma LockRetry(s: Sys, op: Op)
    requires SysInv(s) && NoLostWakeUp(s) && TaskRuns(s) && Fits(s.objs, op) && op.Lock?
    requires s.pcs[s.k.current].Asleep? ==> s.pcs[s.k.current].op == op
    requires Shape(LockTry(s, op))
    ensures NoLostWakeUp(LockTry(s, op))
  {
    hide SysInv;
    var r := LockTry(s, op);
    MoveCalm(s, r);
    NothingThere(s, r, 2 * op.m);
  }

  lemma KindsOnly(r: Sys, i: Sys)
    requires Shape(r) && i == r.(objs := i.objs, lowered := i.lowered) && |i.objs| == |r.objs|
    requires forall o :: 0 <= o < |r.objs| ==> SameKind(r.objs[o], i.objs[o]) && OwnerFits(i.objs[o], |r.k.tasks|)
    ensures Shape(i)
  {
    forall t | 0 <= t < |i.pcs| ensures PcFits(i, t) {
      assert PcFits(r, t);
    }
  }

  /** The flags of an event group are no level. */
  lemma GroupChanges(s: Sys, r: Sys, e: nat)
    requires NoLostWakeUp(s) && Shape(r) && e < |s.objs| && s.objs[e].Group? && |r.objs| == |s.objs|
    requires r.objs == s.objs[e := r.objs[e]] && r.objs[e].Group? && r.k == s.k && r.pcs == s.pcs
    ensures NoLostWakeUp(r)
  {
    AllKept(s, r, s.k.current);
  }

  lemma AwaitRetry(s: Sys, op: Op)
    requires SysInv(s) && NoLostWakeUp(s) && TaskRuns(s) && Fits(s.objs, op) && op.Await?
    requires s.pcs[s.k.current].Asleep? ==> s.pcs[s.k.current].op == op
    requires Shape(AwaitTry(s, op))
    ensures NoLostWakeUp(AwaitTry(s, op))
  {
    hide Block, Met, Without, NoLostWakeUp, PcOk, Inv, WakersDiffer;
    var r := AwaitTry(s, op);
    var i := r.(objs := s.objs);
    KindsOnly(r, i);
    Stays(s, op, i);
    GroupChanges(i, r, op.e);
  }

  lemma Retry(s: Sys, op: Op)
    requires SysInv(s) && NoLostWakeUp(s) && TaskRuns(s) && Fits(s.objs, op)
    requires s.pcs[s.k.current].Asleep? ==> s.pcs[s.k.current].op == op
    requires Shape(TryOp(s, op))
    ensures NoLostWakeUp(TryOp(s, op))
  {
    hide SysInv, NoLostWakeUp, LockTry, TakeTry, SendTry, RecvTry, AwaitTry;
    match op
    case Lock(_, _) => LockRetry(s, op);
    case Take(_, _) => TakeRetry(s, op);
    case Send(_, _, _) => SendRecvRetry(s, op);
    case Recv(_, _) => SendRecvRetry(s, op);
    case Await(_, _, _, _, _) => AwaitRetry(s, op);
  }

  // ---- The other actions ----

  /** Somebody gives to list `l` of object `o`, and its first sleeper is popped and woken. */
  lemma GiveRefills(s: Sys, r: Sys, l: nat, o: nat)
    requires SysInv(s) && NoLostWakeUp(s) && l < |s.k.lists| && l / 2 == o && OneObject(s, r, o)
    requires Shape(r) && CountOk(r.objs[o]) && r.pcs == s.pcs
    requires if s.k.lists[l] == [] then SameWaits(s.k, r.k) else HeadOff(s.k, l, r.k)
    requires LevelOf(r.objs[o], l % 2 == 1) <= LevelOf(s.objs[o], l % 2 == 1) + 1
    requires LevelOf(r.objs[o], l % 2 == 0) <= LevelOf(s.objs[o], l % 2 == 0)
    ensures NoLostWakeUp(r)
  {
    hide LevelOf, CountOk;
    var c := |s.pcs| - 1;
    assert TaskOk(s.k, c);
    if s.k.lists[l] == [] {
      NobodyOn(s, l);
    } else {
      assert ListOk(s.k, l);
      PoppedIsToken(s, r, s.k.lists[l][0], l);
    }
    forall m | 0 <= m < |r.k.lists| ensures ChannelOk(r, m) {
      if m == l {
        if s.k.lists[l] != [] {
          Refilled(s, r, c, l, s.k.lists[l][0]);
        }
      } else if m / 2 == o {
        Kept(s, r, c, m);
      } else {
        OtherLists(s, r, c, o, m);
      }
    }
  }

  ghost predicate SameWaits(k: State, r: State) {
    && |r.tasks| == |k.tasks|
    && forall t :: 0 <= t < |k.tasks| ==> r.tasks[t].on == k.tasks[t].on && r.tasks[t].timedOut == k.tasks[t].timedOut
  }

  /** Nobody's list or wait changes, and no level rises. */
  lemma QuietChannels(s: Sys, r: Sys)
    requires SysInv(s) && NoLostWakeUp(s) && Shape(r) && DataOk(r) && |r.pcs| == |s.pcs| && |r.objs| == |s.objs|
    requires s.k.current < |s.pcs| && r.pcs == s.pcs[s.k.current := r.pcs[s.k.current]]
    requires s.pcs[s.k.current].Asleep? ==> r.pcs[s.k.current] == s.pcs[s.k.current]
    requires forall t :: 0 <= t < |s.pcs| ==>
      r.k.tasks[t].on == s.k.tasks[t].on && r.k.tasks[t].timedOut == s.k.tasks[t].timedOut
    requires forall l :: 0 <= l < |s.k.lists| ==> Level(r, l) <= Level(s, l)
    ensures NoLostWakeUp(r)
  {
    hide Level;
    AllKept(s, r, s.k.current);
  }

  /** A timed-out sleeper was no token, and nobody waits for a level of an event group. */
  lemma ResumeKeeps(s: Sys, op: Op, slot: nat)
    requires SysInv(s) && NoLostWakeUp(s) && TaskRuns(s) && s.pcs[s.k.current] == Asleep(op, slot)
    requires Fits(s.objs, op) && (op.Await? ==> slot < |s.pool|) && SysInv(Resume(s, op, slot))
    ensures NoLostWakeUp(Resume(s, op, slot))
  {
    hide TryOp, PcOk, Inv, WakersDiffer;
    var r := Resume(s, op, slot);
    if op.p.Until? && s.k.tasks[s.k.current].timedOut {
      RunnerAwake(s);
      AllKept(s, r, s.k.current);
    } else if op.Await? {
      Stays(s, op, r);
    } else {
      Retry(s, op);
    }
  }

  lemma LockSlowKeeps(s: Sys, op: Op)
    requires SysInv(s) && NoLostWakeUp(s) && TaskRuns(s) && s.pcs[s.k.current] == Slow(op)
    requires Fits(s.objs, op) && op.Lock? && SysInv(LockSlow(s, op))
    ensures NoLostWakeUp(LockSlow(s, op))
  {
    hide Block, Inherit, PcOk, Inv, WakersDiffer, NoLostWakeUp;
    if Passed(s, op.p) || s.objs[op.m].owner.None? {
      LeaveKeeps(s, LockSlow(s, op));
    } else {
      LockBlockKeeps(s, op);
    }
  }

  lemma LockBlockKeeps(s: Sys, op: Op)
    requires SysInv(s) && NoLostWakeUp(s) && TaskRuns(s) && s.pcs[s.k.current] == Slow(op)
    requires Fits(s.objs, op) && op.Lock? && SysInv(LockSlow(s, op))
    requires !Passed(s, op.p) && s.objs[op.m].owner.Some?
    ensures NoLostWakeUp(LockSlow(s, op))
  {
    hide Block, Inherit, PcOk, WakersDiffer;
    var m := s.objs[op.m];
    var r := LockSlow(s, op);
    InheritInv(s, m);
    LinkedShaped(Inherit(s.k, m).0);
    BlockEffect(Inherit(s.k, m).0, ListOf(op), ArmFor(s, op));
    NothingThere(s, r, ListOf(op));
  }

  lemma WakingKeeps(s: Sys, w: nat, op: Op)
    requires SysInv(s) && NoLostWakeUp(s) && TaskRuns(s) && s.pcs[s.k.current] == Waking(w, op) && w < |s.pcs|
    requires SysInv(Finish(s.(k := Wake(s.k, w), lowered := false), op.p))
    ensures NoLostWakeUp(Finish(s.(k := Wake(s.k, w), lowered := false), op.p))
  {
    hide Wake, PcOk, Inv, WakersDiffer;
    WakeEffect(s.k, w);
    QuietChannels(s, Finish(s.(k := Wake(s.k, w), lowered := false), op.p));
  }

  lemma AdvanceKeeps(s: Sys)
    requires SysInv(s) && NoLostWakeUp(s) && TaskRuns(s) && !s.pcs[s.k.current].User?
    requires SysInv(Advance(s))
    ensures NoLostWakeUp(Advance(s))
  {
    hide TryOp, LockSlow, Resume, Finish, Wake, PcOk, Inv, WakersDiffer, NoLostWakeUp;
    var c := s.k.current;
    assert PcFits(s, c);
    match s.pcs[c]
    case Delaying(_) => LeaveKeeps(s, Goto(s, User));
    case Called(op) => Retry(s, op);
    case Slow(op) => LockSlowKeeps(s, op);
    case Asleep(op, slot) => ResumeKeeps(s, op, slot);
    case Waking(w, op) => WakingKeeps(s, w, op);
  }

  lemma LeaveKeeps(s: Sys, r: Sys)
    requires SysInv(s) && NoLostWakeUp(s) && Shape(r) && s.k.current < |s.pcs| && !s.pcs[s.k.current].Asleep?
    requires |r.pcs| == |s.pcs| && r == s.(pcs := s.pcs[s.k.current := r.pcs[s.k.current]])
    ensures NoLostWakeUp(r)
  {
    QuietChannels(s, r);
  }

  lemma UnlockKeeps(s: Sys, m: nat)
    requires SysInv(s) && NoLostWakeUp(s) && Enabled(s, Unlock(m)) && SysInv(UnlockBy(s, m))
    ensures NoLostWakeUp(UnlockBy(s, m))
  {
    hide PopWake, Restore, PcOk, WakersDiffer, Sorted, Ranked, HeadOff;
    var x := s.objs[m];
    RunnerAwake(s);
    RestoreCore(s, m);
    PopRestore(s.k, x, 2 * m);
    if s.k.lists[2 * m] == [] {
      PopWakeNone(Restore(s.k, x), 2 * m);
    } else {
      PopWakeHeadOff(Restore(s.k, x), 2 * m);
      RestoreHeadOff(s.k, x, 2 * m, PopWake(Restore(s.k, x), 2 * m));
    }
    GiveRefills(s, UnlockBy(s, m), 2 * m, m);
  }

  lemma RestoreHeadOff(k: State, m: Object, l: nat, r: State)
    requires m.Mutex? && m.owner.Some? && m.owner.value < |k.tasks| && l < |k.lists| && k.lists[l] != []
    requires HeadOff(Restore(k, m), l, r)
    ensures HeadOff(k, l, r)
  {
  }

  lemma GiveKeeps(s: Sys, x: nat)
    requires SysInv(s) && NoLostWakeUp(s) && x < |s.objs| && s.objs[x].Semaphore? && SysInv(Give(s, x))
    ensures NoLostWakeUp(Give(s, x))
  {
    hide PcOk, WakersDiffer, HeadOff, PopWake, OneRunning, ListOk, TaskOk;
    PopWakeWaits(s.k, 2 * x);
    assert CountOk(s.objs[x]);
    GiveRefills(s, Give(s, x), 2 * x, x);
  }

  lemma QueueIsrKeeps(s: Sys, q: nat, items: seq<RingBuffer.Item>, l: nat)
    requires SysInv(s) && NoLostWakeUp(s) && q < |s.objs| && s.objs[q].Queue?
    requires l < |s.k.lists| && SysInv(QueueFromIsr(s, q, items, l))
    requires |items| <= s.objs[q].capacity
    requires (l == 2 * q && |items| == |s.objs[q].items| + 1) || (l == 2 * q + 1 && |items| + 1 == |s.objs[q].items|)
    ensures NoLostWakeUp(QueueFromIsr(s, q, items, l))
  {
    hide PcOk, WakersDiffer, HeadOff, PopWake, OneRunning, ListOk, TaskOk;
    PopWakeWaits(s.k, l);
    GiveRefills(s, QueueFromIsr(s, q, items, l), l, q);
  }

  lemma TimeKeeps(s: Sys, ms: nat)
    requires SysInv(s) && NoLostWakeUp(s) && ms > 0
    requires SysInv(s.(k := TickN(s.k, ms), now := s.now + ms, lowered := false))
    ensures NoLostWakeUp(s.(k := TickN(s.k, ms), now := s.now + ms, lowered := false))
  {
    hide TickN;
    var r := s.(k := TickN(s.k, ms), now := s.now + ms, lowered := false);
    TickAges(s.k, ms);
    assert TaskOk(s.k, |s.pcs| - 1);
    forall t | 0 <= t < |s.pcs|
      ensures r.k.tasks[t].on == s.k.tasks[t].on || r.k.tasks[t].on.None?
      ensures s.pcs[t].Asleep? && s.k.tasks[t].on.None? ==> r.k.tasks[t].timedOut == s.k.tasks[t].timedOut
    {
      assert PcOk(s, t);
    }
    AllKept(s, r, |s.pcs| - 1);
  }

  lemma SweepWakeKeeps(s: Sys, w: Swept, e: nat, i: nat)
    requires e < |s.objs| && s.objs[e].Group? && SysInv(Embed(s, w, e)) && NoLostWakeUp(Embed(s, w, e))
    requires i < |w.k.lists[2 * e]| && Satisfied(w, 2 * e, i)
    ensures Shaped(w.k) && NoLostWakeUp(Embed(s, SweepWake(w, 2 * e, i), e))
  {
    hide Met, Without, Wake, Satisfied;
    SweepWakeEffect(w, 2 * e, i);
    SweepWakeCore(s, w, e, i);
    var a, b := Embed(s, w, e), Embed(s, SweepWake(w, 2 * e, i), e);
    assert TaskOk(w.k, |s.pcs| - 1);
    forall o | 0 <= o < |b.objs| ensures CountOk(b.objs[o]) {
      assert o == e || CountOk(a.objs[o]);
    }
    AllKept(a, b, |s.pcs| - 1);
  }

  lemma {:induction false} SweepKeeps(s: Sys, w: Swept, e: nat, i: nat)
    requires e < |s.objs| && s.objs[e].Group? && SysInv(Embed(s, w, e)) && NoLostWakeUp(Embed(s, w, e))
    ensures Shaped(w.k) && NoLostWakeUp(Embed(s, Sweep(w, 2 * e, i), e))
    decreases |w.k.lists[2 * e]| - i
  {
    hide SweepWake, Satisfied, NoLostWakeUp, PcOk, Inv, WakersDiffer;
    if i < |w.k.lists[2 * e]| {
      if Satisfied(w, 2 * e, i) {
        SweepWakeKeeps(s, w, e, i);
        SweepWakeCore(s, w, e, i);
        SweepKeeps(s, SweepWake(w, 2 * e, i), e, i);
      } else {
        SweepKeeps(s, w, e, i + 1);
      }
    }
  }

  lemma SetFlagsKeeps(s: Sys, e: nat, bits: bv32)
    requires SysInv(s) && NoLostWakeUp(s) && Enabled(s, SetBits(e, bits))
    ensures NoLostWakeUp(SetFlags(s, e, bits))
  {
    hide Sweep, PcOk, Inv, WakersDiffer, NoLostWakeUp;
    var w := SweepStart(s, e, bits);
    StartCore(s, e, bits);
    GroupChanges(s, Embed(s, w, e), e);
    SweepKeeps(s, w, e, 0);
    var v := Embed(s, Sweep(w, 2 * e, 0), e);
    LoweredKeeps(v, SetFlags(s, e, bits).lowered);
  }

  lemma LoweredKeeps(s: Sys, flag: bool)
    requires NoLostWakeUp(s)
    ensures NoLostWakeUp(s.(lowered := flag))
  {
    var r := s.(lowered := flag);
    KindsOnly(s, r.(objs := s.objs));
    AllKept(s, r, s.k.current);
  }

  lemma DelayKeeps(s: Sys, ms: nat)
    requires SysInv(s) && NoLostWakeUp(s) && Enabled(s, StartDelay(ms))
    ensures NoLostWakeUp(Apply(s, StartDelay(ms)))
  {
    hide Delay, PcOk, Inv, WakersDiffer;
    StepCore(s, StartDelay(ms));
    DelayEffect(s.k, ms);
    QuietChannels(s, Apply(s, StartDelay(ms)));
  }

  lemma YieldKeeps(s: Sys)
    requires SysInv(s) && NoLostWakeUp(s) && Enabled(s, YieldNow)
    ensures NoLostWakeUp(Apply(s, YieldNow))
  {
    hide Yield, PcOk, Inv, WakersDiffer;
    StepCore(s, YieldNow);
    RunnerAwake(s);
    YieldEffect(s.k);
    QuietChannels(s, Apply(s, YieldNow));
  }

  lemma StepKeeps(s: Sys, a: Action)
    requires SysInv(s) && NoLostWakeUp(s) && Enabled(s, a)
    ensures NoLostWakeUp(Apply(s, a))
  {
    hide Advance, UnlockBy, SetFlags, Give, QueueFromIsr, Delay, Yield, TickN, PcOk, Inv, WakersDiffer;
    StepCore(s, a);
    var r := Apply(s, a);
    match a
    case Call(op) => LeaveKeeps(s, r);
    case Continue => AdvanceKeeps(s);
    case Unlock(m) => UnlockKeeps(s, m);
    case StartDelay(ms) => DelayKeeps(s, ms);
    case YieldNow => YieldKeeps(s);
    case IsrGive(x) => GiveKeeps(s, x);
    case IsrTake(x) => QuietChannels(s, r);
    case IsrSend(q, item) => QueueIsrKeeps(s, q, s.objs[q].items + [item], 2 * q);
    case IsrRecv(q) => QueueIsrKeeps(s, q, s.objs[q].items[1..], 2 * q + 1);
    case SetBits(e, bits) => SetFlagsKeeps(s, e, bits);
    case ClearBits(e, bits) => GroupChanges(s, r, e);
    case Tick => TimeKeeps(s, 1);
    case Sleep(ms) => TimeKeeps(s, ms);
    case PendSv => DeliverKeeps(s);
  }

  lemma DeliverKeeps(s: Sys)
    requires SysInv(s) && NoLostWakeUp(s) && Shape(s.(k := Deliver(s.k)))
    ensures NoLostWakeUp(s.(k := Deliver(s.k)))
  {
    QuietChannels(s, s.(k := Deliver(s.k)));
  }

  lemma InitKeeps(s: Sys)
    requires Init(s)
    ensures SysInv(s) && NoLostWakeUp(s)
  {
    InitInv(s);
    assert DataOk(s);
  }

  lemma {:induction false} RunKeeps(tr: seq<Sys>, acts: seq<Action>, i: nat)
    requires IsRun(tr, acts) && Init(tr[0]) && i < |tr|
    ensures SysInv(tr[i]) && NoLostWakeUp(tr[i])
  {
    hide Apply, Init, NoLostWakeUp;
    RunInv(tr, acts, i);
    if i == 0 {
      InitKeeps(tr[0]);
    } else {
      RunKeeps(tr, acts, i - 1);
      StepKeeps(tr[i - 1], acts[i - 1]);
    }
  }
}
