/** Short runs from start-up into the states that the callers' disciplines exclude: the
    failures described in `Counterexamples` do happen. */
module Scenarios {
  import opened Selection
  import opened WaitQueue
  import opened Kernel
  import opened Effects
  import opened Primitives
  import opened System
  import opened Integrity
  import opened Runs

  /** Some run from start-up ends in `s`. */
  ghost predicate Reachable(s: Sys) {
    exists tr, acts :: IsRun(tr, acts) && Init(tr[0]) && tr[|acts|] == s
  }

  lemma Begin(s: Sys)
    requires Init(s)
    ensures Reachable(s)
  {
    var none: seq<Action> := [];
    assert IsRun([s], none) && [s][|none|] == s;
  }

  lemma Then(s: Sys, a: Action, r: Sys)
    requires Reachable(s) && Enabled(s, a) && (Shape(s) ==> r == Apply(s, a))
    ensures Reachable(r)
  {
    hide Apply, Enabled, Init;
    var tr, acts :| IsRun(tr, acts) && Init(tr[0]) && tr[|acts|] == s;
    RunInv(tr, acts, |acts|);
    OneMore(tr, acts, a, r);
    var longer, more := tr + [r], acts + [a];
    assert IsRun(longer, more) && longer[0] == tr[0] && longer[|more|] == r;
  }

  lemma ReachableInv(s: Sys)
    requires Reachable(s)
    ensures SysInv(s) && Shape(s)
  {
    var tr, acts :| IsRun(tr, acts) && Init(tr[0]) && tr[|acts|] == s;
    RunInv(tr, acts, |acts|);
  }

  /** A run, from start-up or not, leads from `s` to `r`. */
  ghost predicate Leads(s: Sys, r: Sys) {
    exists tr, acts :: IsRun(tr, acts) && tr[0] == s && tr[|acts|] == r
  }

  lemma LeadsHere(s: Sys)
    ensures Leads(s, s)
  {
    var none: seq<Action> := [];
    assert IsRun([s], none) && [s][0] == s && [s][|none|] == s;
  }

  /** One action more, on the way from `s`. */
  lemma OnTheWay(s: Sys, m: Sys, a: Action, r: Sys)
    requires Reachable(m) && Leads(s, m) && Enabled(m, a) && (Shape(m) ==> r == Apply(m, a))
    ensures Reachable(r) && Leads(s, r)
  {
    hide Apply, Enabled, Reachable;
    ReachableInv(m);
    Then(m, a, r);
    var tr, acts :| IsRun(tr, acts) && tr[0] == s && tr[|acts|] == m;
    OneMore(tr, acts, a, r);
    var longer, more := tr + [r], acts + [a];
    assert IsRun(longer, more) && longer[0] == s && longer[|more|] == r;
  }

  lemma OneMore(tr: seq<Sys>, acts: seq<Action>, a: Action, r: Sys)
    requires IsRun(tr, acts) && Shape(tr[|acts|]) && Enabled(tr[|acts|], a) && r == Apply(tr[|acts|], a)
    ensures IsRun(tr + [r], acts + [a])
  {
    hide Apply, Enabled, Shape;
    var longer, more := tr + [r], acts + [a];
    forall i | 0 <= i < |more|
      ensures Shape(longer[i]) && Enabled(longer[i], more[i]) && longer[i + 1] == Apply(longer[i], more[i])
    {
      if i < |acts| {
        assert longer[i] == tr[i] && longer[i + 1] == tr[i + 1] && more[i] == acts[i];
      }
    }
  }

  /** A decision for `c`. */
  lemma Decides(k: State, c: nat)
    requires Bounds(k) && IsChoice(RollBack(k).tasks, k.current, c) && RollBack(k).tasks[c].state.Ready?
    ensures Commit(k) == SetState(RollBack(k), c, Running).(next := c)
  {
    SelectIsChoice(RollBack(k).tasks, k.current);
    ChoiceUnique(RollBack(k).tasks, k.current, c, Select(RollBack(k).tasks, k.current));
  }

  /** A task with no delay and on no list. */
  function Free(state: TaskState, prio: nat): Tcb {
    Tcb(state, prio, 0, None, false, None, 0)
  }

  // ---- An unlock leaves the wrong task running ----

  /** Task 0 has priority 5, task 1 priority 1. */
  const START := State([Free(Ready, 5), Free(Running, 1), Free(Ready, 7)], [[], []], 1, 1, 1)
  const DELAYED := State([Free(Running, 5), Free(Blocked, 1).(delay := 1), Free(Ready, 7)], [[], []], 1, 0, 1)
  const QUEUED := State(
    [Free(Running, 1), Tcb(Blocked, 1, 1, Some(0), false, Some(0), 1), Free(Ready, 7)], [[1], []], 1, 0, 2)
  const GIVENUP := State([Free(Ready, 1), Tcb(Running, 1, 0, None, true, None, 1), Free(Ready, 7)], [[], []], 0, 1, 2)
  const YIELDED := State([Free(Running, 1), Free(Ready, 1).(stamp := 1), Free(Ready, 7)], [[], []], 1, 0, 2)

  lemma BetterDelays()
    ensures Delay(START, 1) == DELAYED
  {
    var k := SetTask(START, 1, Free(Blocked, 1).(delay := 1));
    assert RollBack(k) == k && Eligible(k.tasks, 0);
    Decides(k, 0);
    assert Commit(k).tasks == DELAYED.tasks;
  }

  lemma DelayRunsOut()
    ensures Shaped(Deliver(DELAYED)) && TickN(Deliver(DELAYED), 1) == START.(current := 0)
  {
    var k := Deliver(DELAYED);
    var x := k.(tasks := [Free(Running, 5), Free(Ready, 1), Free(Ready, 7)]);
    assert Expire(k, 0, 1) == k;
    assert ExpireUpTo(k, 1, 1) == k;
    assert ExpireUpTo(k, 1, 2) == x;
    var d := x.(tasks := [Free(Ready, 5), Free(Ready, 1), Free(Ready, 7)]);
    assert Demote(x) == d && RollBack(d) == d && Eligible(d.tasks, 1);
    Decides(d, 1);
    assert Commit(d).tasks == START.tasks;
  }

  lemma BetterQueues()
    ensures Block(SetTask(START, 0, Free(Ready, 1)), 0, Timed(1)) == QUEUED
  {
    var k := SetTask(START, 0, Free(Ready, 1));
    var y := Prepared(k.tasks[1], 0, Timed(1));
    assert Insert([], SetTask(k, 1, y).tasks, 1) == [1];
    var e := Enqueue(SetTask(k, 1, y), 1, 0);
    assert e.tasks == [Free(Ready, 1), QUEUED.tasks[1], Free(Ready, 7)];
    assert Demote(e) == e && RollBack(e) == e && Eligible(e.tasks, 0);
    Decides(e, 0);
    assert Commit(e).tasks == QUEUED.tasks;
    assert e.lists == QUEUED.lists;
  }

  lemma BetterTimesOut()
    ensures Shaped(Deliver(QUEUED)) && TickN(Deliver(QUEUED), 1) == GIVENUP
  {
    var k := Deliver(QUEUED);
    var x := GIVENUP.(tasks := [Free(Running, 1), GIVENUP.tasks[1].(state := Ready), Free(Ready, 7)], next := 0);
    assert Expire(k, 0, 1) == k;
    assert ExpireUpTo(k, 1, 1) == k;
    assert Unlink(k, 1, 0).lists == [[], []];
    assert Expire(k, 1, 1).tasks == x.tasks;
    assert ExpireUpTo(k, 1, 2) == x;
    var d := x.(tasks := x.tasks[0 := Free(Ready, 1)]);
    assert Demote(x) == d && RollBack(d) == d && Eligible(d.tasks, 1) && Eligible(d.tasks, 0);
    Decides(d, 1);
    assert Commit(d).tasks == GIVENUP.tasks;
  }

  lemma BetterYields()
    ensures var k := GIVENUP.(current := 1, tasks := GIVENUP.tasks[1 := Free(Running, 1).(stamp := 1)]);
      Yield(k) == YIELDED
  {
    var k := GIVENUP.(current := 1, tasks := GIVENUP.tasks[1 := Free(Running, 1).(stamp := 1)]);
    var d := SetState(k, 1, Ready);
    assert RollBack(d) == d && Eligible(d.tasks, 0) && Eligible(d.tasks, 1);
    Decides(d, 0);
    assert Commit(d).tasks == YIELDED.tasks;
  }

  /** One mutex, list 0; the idle task and the rest of the state do not change. */
  function Scene(k: State, m: Object, owner: Pc, better: Pc, now: nat): Sys {
    Sys(k, [m], [owner, better, User], [], now, [], [5, 1, 7], false)
  }

  const FREE := Mutex(None, 0, false, [], 0)
  const HELD := Mutex(Some(0), 0, false, [], 1)
  const RAISED := Mutex(Some(0), 5, true, [1], 1)

  /** The better task delays, and the other one locks the mutex. */
  lemma OwnerLocks() returns (s: Sys)
    ensures s == Scene(Deliver(DELAYED), HELD, User, Delaying(1), 0) && Reachable(s)
  {
    hide Delay, Reachable, Shape;
    var s0 := Scene(START, FREE, User, User, 0);
    StartIsInit();
    BetterDelays();
    var s1 := Scene(DELAYED, FREE, User, Delaying(1), 0);
    Then(s0, StartDelay(1), s1);
    var s2 := Scene(Deliver(DELAYED), FREE, User, Delaying(1), 0);
    Then(s1, PendSv, s2);
    var s3 := Scene(Deliver(DELAYED), FREE, Called(Lock(0, Forever)), Delaying(1), 0);
    Then(s2, Call(Lock(0, Forever)), s3);
    s := Scene(Deliver(DELAYED), HELD, User, Delaying(1), 0);
    Then(s3, Continue, s);
  }

  lemma StartIsInit()
    ensures Reachable(Scene(START, FREE, User, User, 0))
  {
    hide Reachable, IsRun;
    Begin(Scene(START, FREE, User, User, 0));
  }

  /** The better task comes back and calls `mutex_lock_timeout`. */
  lemma BetterCalls() returns (s: Sys)
    ensures s == Scene(START, HELD, User, Slow(Lock(0, Until(2))), 1) && Reachable(s)
  {
    hide TickN, Reachable, Shape;
    var s4 := OwnerLocks();
    var timed := Lock(0, Until(2));
    DelayRunsOut();
    var s5 := Scene(START.(current := 0), HELD, User, Delaying(1), 1);
    Then(s4, Tick, s5);
    var s6 := Scene(START, HELD, User, Delaying(1), 1);
    Then(s5, PendSv, s6);
    var s7 := Scene(START, HELD, User, User, 1);
    Then(s6, Continue, s7);
    var s8 := Scene(START, HELD, User, Called(timed), 1);
    Then(s7, Call(timed), s8);
    s := Scene(START, HELD, User, Slow(timed), 1);
    Then(s8, Continue, s);
  }

  /** It queues, and the owner gets its priority. */
  lemma OwnerElevated() returns (s: Sys)
    ensures s == Scene(QUEUED, RAISED, User, Asleep(Lock(0, Until(2)), 0), 1) && Reachable(s)
  {
    hide Block, Reachable, Shape;
    var s9 := BetterCalls();
    BetterQueues();
    s := Scene(QUEUED, RAISED, User, Asleep(Lock(0, Until(2)), 0), 1);
    assert Inherit(START, HELD) == (SetTask(START, 0, Free(Ready, 1)), RAISED) by {
      assert HELD.queued + [1] == [1];
    }
    Then(s9, Continue, s);
  }

  /** It times out and yields. */
  lemma OwnerElevatedInVain() returns (s: Sys)
    ensures s == Scene(Deliver(YIELDED), RAISED, User, User, 2) && Reachable(s)
  {
    hide TickN, Yield, Reachable, Shape;
    var s10 := OwnerElevated();
    var timed := Lock(0, Until(2));
    var s11 := Scene(Deliver(QUEUED), RAISED, User, Asleep(timed, 0), 1);
    Then(s10, PendSv, s11);
    BetterTimesOut();
    var s12 := Scene(GIVENUP, RAISED, User, Asleep(timed, 0), 2);
    Then(s11, Tick, s12);
    var s13 := Scene(Deliver(GIVENUP), RAISED, User, Asleep(timed, 0), 2);
    Then(s12, PendSv, s13);
    var back := GIVENUP.(current := 1, tasks := GIVENUP.tasks[1 := Free(Running, 1).(stamp := 1)]);
    var s14 := Scene(back, RAISED, User, User, 2);
    Then(s13, Continue, s14);
    BetterYields();
    var s15 := Scene(YIELDED, RAISED, User, User, 2);
    Then(s14, YieldNow, s15);
    s := Scene(Deliver(YIELDED), RAISED, User, User, 2);
    Then(s15, PendSv, s);
  }

  /** Task 1 queues behind the owner, times out and yields; the owner unlocks with nobody to
      wake, and goes on although task 1 is READY and better. */
  lemma WrongTaskRuns() returns (s: Sys)
    ensures Reachable(s) && Shape(s) && Enabled(s, Unlock(0))
    ensures var r := UnlockBy(s, 0);
      TaskRuns(r) && IsReady(r.k.tasks, 1) && r.k.tasks[1].prio < r.k.tasks[r.k.current].prio
  {
    hide Shape, Reachable;
    s := OwnerElevatedInVain();
    ReachableInv(s);
  }

  // ---- An elevation leaves a list out of order ----

  const FIRST := State([Free(Ready, 5), Free(Ready, 3), Free(Running, 1), Free(Ready, 7)], [[], [], [], []], 2, 2, 1)
  const DELAYER := Free(Blocked, 1).(delay := 1)
  const SECOND := State([Free(Ready, 5), Free(Running, 3), DELAYER, Free(Ready, 7)], [[], [], [], []], 2, 1, 1)
  const QUEUER := Tcb(Blocked, 3, 0, None, false, Some(2), 1)
  const HOLDER := Tcb(Blocked, 5, 0, None, false, Some(2), 2)
  const THIRD := State([Free(Running, 5), QUEUER, DELAYER, Free(Ready, 7)], [[], [], [1], []], 1, 0, 2)
  const FOURTH := State([HOLDER, QUEUER, DELAYER, Free(Running, 7)], [[], [], [1, 0], []], 0, 3, 3)
  const FIFTH := State([HOLDER, QUEUER, Free(Running, 1), Free(Ready, 7)], [[], [], [1, 0], []], 3, 2, 3)

  lemma BestDelays()
    ensures Delay(FIRST, 1) == SECOND
  {
    var k := SetTask(FIRST, 2, Free(Blocked, 1).(delay := 1));
    assert RollBack(k) == k && Eligible(k.tasks, 1);
    Decides(k, 1);
    assert Commit(k).tasks == SECOND.tasks;
  }

  lemma QueuerQueues()
    ensures Block(Deliver(SECOND), 2, Untimed) == THIRD
  {
    var k := Deliver(SECOND);
    var y := Prepared(k.tasks[1], 2, Untimed);
    assert Insert([], SetTask(k, 1, y).tasks, 1) == [1];
    var e := Enqueue(SetTask(k, 1, y), 1, 2);
    assert e.tasks == [Free(Ready, 5), QUEUER, DELAYER, Free(Ready, 7)];
    assert Demote(e) == e && RollBack(e) == e && Eligible(e.tasks, 0);
    Decides(e, 0);
    assert Commit(e).tasks == THIRD.tasks;
    assert e.lists == THIRD.lists;
  }

  lemma HolderQueues()
    ensures InRange(THIRD.lists[2], 4) && Block(Deliver(THIRD), 2, Untimed) == FOURTH
  {
    var k := Deliver(THIRD);
    var y := Prepared(k.tasks[0], 2, Untimed);
    assert Insert([1], SetTask(k, 0, y).tasks, 0) == [1, 0];
    var e := Enqueue(SetTask(k, 0, y), 0, 2);
    assert e.tasks == [HOLDER, QUEUER, DELAYER, Free(Ready, 7)];
    assert Demote(e) == e && RollBack(e) == e;
    assert IsChoice(e.tasks, 0, 3);
    Decides(e, 3);
    assert Commit(e).tasks == FOURTH.tasks;
    assert e.lists == FOURTH.lists;
  }

  lemma BestWakes()
    ensures Shaped(Deliver(FOURTH)) && TickN(Deliver(FOURTH), 1) == FIFTH
  {
    var k := Deliver(FOURTH);
    var x := k.(tasks := [HOLDER, QUEUER, Free(Ready, 1), Free(Running, 7)]);
    assert ExpireUpTo(k, 1, 1) == k;
    assert ExpireUpTo(k, 1, 2) == k;
    assert ExpireUpTo(k, 1, 3) == x;
    var d := x.(tasks := [HOLDER, QUEUER, Free(Ready, 1), Free(Ready, 7)]);
    assert Demote(x) == d && RollBack(d) == d && Eligible(d.tasks, 2);
    Decides(d, 2);
    assert Commit(d).tasks == FIFTH.tasks;
  }

  /** A mutex and a semaphore without tokens, whose list is list 2. */
  function Pair(k: State, m: Object, holder: Pc, queuer: Pc, best: Pc, now: nat): Sys {
    Sys(k, [m, Semaphore(0, 1, 0, 0)], [holder, queuer, best, User], [], now, [], [5, 3, 1, 7], false)
  }

  lemma FirstIsInit()
    ensures Reachable(Pair(FIRST, FREE, User, User, User, 0))
  {
    hide Reachable, IsRun;
    Begin(Pair(FIRST, FREE, User, User, User, 0));
  }

  /** The best task delays and the next one waits for a token. */
  lemma QueuerWaits() returns (s: Sys)
    ensures s == Pair(Deliver(THIRD), FREE, User, Asleep(Take(1, Forever), 0), Delaying(1), 0) && Reachable(s)
  {
    hide Delay, Block, Reachable, Shape;
    var take := Take(1, Forever);
    FirstIsInit();
    BestDelays();
    var s1 := Pair(SECOND, FREE, User, User, Delaying(1), 0);
    Then(Pair(FIRST, FREE, User, User, User, 0), StartDelay(1), s1);
    var s2 := Pair(Deliver(SECOND), FREE, User, User, Delaying(1), 0);
    Then(s1, PendSv, s2);
    var s3 := Pair(Deliver(SECOND), FREE, User, Called(take), Delaying(1), 0);
    Then(s2, Call(take), s3);
    QueuerQueues();
    var s4 := Pair(THIRD, FREE, User, Asleep(take, 0), Delaying(1), 0);
    Then(s3, Continue, s4);
    s := Pair(Deliver(THIRD), FREE, User, Asleep(take, 0), Delaying(1), 0);
    Then(s4, PendSv, s);
  }

  /** The last one locks the mutex and waits for a token too. */
  lemma HolderWaits() returns (s: Sys)
    ensures s == Pair(Deliver(FOURTH), Mutex(Some(0), 0, false, [], 2),
      Asleep(Take(1, Forever), 0), Asleep(Take(1, Forever), 0), Delaying(1), 0) && Reachable(s)
  {
    hide Block, Reachable, Shape;
    var lock, take, held := Lock(0, Forever), Take(1, Forever), Mutex(Some(0), 0, false, [], 2);
    var s5 := QueuerWaits();
    var s6 := Pair(Deliver(THIRD), FREE, Called(lock), Asleep(take, 0), Delaying(1), 0);
    Then(s5, Call(lock), s6);
    var s7 := Pair(Deliver(THIRD), held, User, Asleep(take, 0), Delaying(1), 0);
    Then(s6, Continue, s7);
    var s8 := Pair(Deliver(THIRD), held, Called(take), Asleep(take, 0), Delaying(1), 0);
    Then(s7, Call(take), s8);
    HolderQueues();
    var s9 := Pair(FOURTH, held, Asleep(take, 0), Asleep(take, 0), Delaying(1), 0);
    Then(s8, Continue, s9);
    s := Pair(Deliver(FOURTH), held, Asleep(take, 0), Asleep(take, 0), Delaying(1), 0);
    Then(s9, PendSv, s);
  }

  /** The best task comes back and calls `mutex_lock`. */
  lemma BestCalls() returns (s: Sys)
    ensures s == Pair(Deliver(FIFTH), Mutex(Some(0), 0, false, [], 2),
      Asleep(Take(1, Forever), 0), Asleep(Take(1, Forever), 0), Slow(Lock(0, Forever)), 1) && Reachable(s)
  {
    hide TickN, Reachable, Shape;
    var lock, take, held := Lock(0, Forever), Take(1, Forever), Mutex(Some(0), 0, false, [], 2);
    var s10 := HolderWaits();
    BestWakes();
    var s11 := Pair(FIFTH, held, Asleep(take, 0), Asleep(take, 0), Delaying(1), 1);
    Then(s10, Tick, s11);
    var s12 := Pair(Deliver(FIFTH), held, Asleep(take, 0), Asleep(take, 0), Delaying(1), 1);
    Then(s11, PendSv, s12);
    var s13 := Pair(Deliver(FIFTH), held, Asleep(take, 0), Asleep(take, 0), User, 1);
    Then(s12, Continue, s13);
    var s14 := Pair(Deliver(FIFTH), held, Asleep(take, 0), Asleep(take, 0), Called(lock), 1);
    Then(s13, Call(lock), s14);
    s := Pair(Deliver(FIFTH), held, Asleep(take, 0), Asleep(take, 0), Slow(lock), 1);
    Then(s14, Continue, s);
  }

  /** A holder queues for a token behind a better task; then its priority is raised above that
      task's, and the list of the semaphore is out of order. */
  lemma ListOutOfOrder() returns (s: Sys)
    ensures Reachable(s) && Shape(s) && Enabled(s, Continue)
    ensures Sorted(s.k, 2) && !Sorted(Apply(s, Continue).k, 2)
  {
    hide Block, Reachable, Shape;
    s := BestCalls();
    ReachableInv(s);
    var (k, m) := Inherit(s.k, s.objs[0]);
    assert k == SetTask(s.k, 0, HOLDER.(prio := 1));
    BlockEffect(k, 0, Untimed);
    var r := Apply(s, Continue).k;
    assert r == Block(k, 0, Untimed);
    assert r.lists[2][0] == 1 && r.lists[2][1] == 0;
    assert !Before(r.tasks[1], r.tasks[0]);
  }

  // ---- A waiter with a running timeout ----

  /** Task 0 runs, task 1 waits on list 0 with one millisecond left. */
  const WAITING := State(
    [Free(Running, 1), Tcb(Blocked, 0, 1, Some(0), false, Some(0), 1), Free(Ready, 3)], [[1], []], 0, 0, 2)

  const ARRIVING := State([Free(Ready, 1), Free(Running, 0), Free(Ready, 3)], [[], []], 1, 1, 1)

  lemma ReceiverQueues()
    ensures Block(ARRIVING, 0, Timed(1)) == WAITING.(current := 1)
  {
    var y := Prepared(ARRIVING.tasks[1], 0, Timed(1));
    assert Insert([], SetTask(ARRIVING, 1, y).tasks, 1) == [1];
    var e := Enqueue(SetTask(ARRIVING, 1, y), 1, 0);
    assert e.tasks == [Free(Ready, 1), WAITING.tasks[1], Free(Ready, 3)];
    assert Demote(e) == e && RollBack(e) == e && Eligible(e.tasks, 0);
    Decides(e, 0);
    assert Commit(e).tasks == WAITING.tasks;
    assert e.lists == WAITING.lists;
  }

  /** A queue for one item, and a receiver. */
  function Line(k: State, receiver: Pc): Sys {
    Sys(k, [Queue([], 1)], [User, receiver, User], [], 0, [], [1, 0, 3], false)
  }

  lemma LineIsInit()
    ensures Reachable(Line(ARRIVING, User))
  {
    hide Reachable, IsRun;
    Begin(Line(ARRIVING, User));
  }

  /** The better task calls `queue_receive_timeout` on the empty queue. */
  lemma ReceiverWaits()
    ensures Reachable(Line(WAITING, Asleep(Recv(0, Until(1)), 0)))
  {
    hide Block, Reachable, Shape;
    var recv := Recv(0, Until(1));
    LineIsInit();
    var s1 := Line(ARRIVING, Called(recv));
    Then(Line(ARRIVING, User), Call(recv), s1);
    ReceiverQueues();
    var s2 := Line(WAITING.(current := 1), Asleep(recv, 0));
    Then(s1, Continue, s2);
    Then(s2, PendSv, Line(WAITING, Asleep(recv, 0)));
  }

  // ---- An idle task ----

  const BUSY := State([Free(Running, 1), Free(Ready, 7)], [], 0, 0, 1)

  /** The only task delays for 10 milliseconds, and the idle task runs. */
  const RESTING := State([Free(Blocked, 1).(delay := 10), Free(Running, 7)], [], 1, 1, 1)

  lemma OnlyTaskDelays()
    ensures Delay(BUSY, 10) == RESTING.(current := 0)
  {
    var k := SetTask(BUSY, 0, Free(Blocked, 1).(delay := 10));
    assert RollBack(k) == k && IsChoice(k.tasks, 0, 1);
    Decides(k, 1);
    assert Commit(k).tasks == RESTING.tasks;
  }

  function Alone(k: State, pc: Pc): Sys {
    Sys(k, [], [pc, User], [], 0, [], [1, 7], false)
  }

  lemma AloneIsInit()
    ensures Reachable(Alone(BUSY, User))
  {
    hide Reachable, IsRun;
    Begin(Alone(BUSY, User));
  }

  lemma IdleRuns()
    ensures Reachable(Alone(RESTING, Delaying(10)))
  {
    hide Delay, Reachable, Shape;
    AloneIsInit();
    OnlyTaskDelays();
    Then(Alone(BUSY, User), StartDelay(10), Alone(RESTING.(current := 0), Delaying(10)));
    Then(Alone(RESTING.(current := 0), Delaying(10)), PendSv, Alone(RESTING, Delaying(10)));
  }
}
