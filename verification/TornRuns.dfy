/** Short runs from start-up to states in which an interrupt, taken where no critical section
    keeps it out, breaks what whole steps keep; and a run across a wrap of the clock. */
module TornRuns {
  import opened Selection
  import opened WaitQueue
  import opened Kernel
  import opened Effects
  import opened Ticks
  import opened Primitives
  import opened System
  import opened Integrity
  import opened Runs
  import opened Channels
  import opened Timers
  import opened Scenarios
  import opened Interrupted
  import Tickless

  const EMPTY := Semaphore(0, 1, 0, 0)
  const SLEEPER := Tcb(Blocked, 1, 0, None, false, Some(0), 1)

  // ---- Two RUNNING tasks ----

  const FIRST2 := State([Free(Ready, 2), Free(Running, 1), Free(Ready, 7)], [[], []], 1, 1, 1)
  const SECOND2 := State([Free(Running, 2), SLEEPER, Free(Ready, 7)], [[1], []], 1, 0, 2)

  /** A semaphore without tokens. */
  function Waiting(k: State, worse: Pc, better: Pc): Sys {
    Sys(k, [EMPTY], [worse, better, User], [], 0, [], [2, 1, 7], false)
  }

  lemma BetterSleeps()
    ensures Block(FIRST2, 0, Untimed) == SECOND2
  {
    var y := Prepared(FIRST2.tasks[1], 0, Untimed);
    assert Insert([], SetTask(FIRST2, 1, y).tasks, 1) == [1];
    var e := Enqueue(SetTask(FIRST2, 1, y), 1, 0);
    assert e.tasks == [Free(Ready, 2), SLEEPER, Free(Ready, 7)];
    assert Demote(e) == e && RollBack(e) == e && Eligible(e.tasks, 0);
    Decides(e, 0);
    assert Commit(e).tasks == SECOND2.tasks;
    assert e.lists == SECOND2.lists;
  }

  lemma WaitingIsInit()
    ensures Reachable(Waiting(FIRST2, User, User))
  {
    hide Reachable, IsRun;
    Begin(Waiting(FIRST2, User, User));
  }

  lemma BetterWaits()
    ensures Reachable(Waiting(Deliver(SECOND2), User, Asleep(Take(0, Forever), 0)))
  {
    hide Block, Reachable, Shape;
    var take := Take(0, Forever);
    WaitingIsInit();
    Then(Waiting(FIRST2, User, User), Call(take), Waiting(FIRST2, User, Called(take)));
    BetterSleeps();
    Then(Waiting(FIRST2, User, Called(take)), Continue, Waiting(SECOND2, User, Asleep(take, 0)));
    Then(Waiting(SECOND2, User, Asleep(take, 0)), PendSv, Waiting(Deliver(SECOND2), User, Asleep(take, 0)));
  }

  /** What a SysTick has made of `Deliver(SECOND2)` when it has rolled back. */
  const ROLLED := State([Free(Ready, 2), SLEEPER, Free(Ready, 7)], [[1], []], 0, 0, 2)

  /** And what `sem_give`, called by an interrupt, makes of that. */
  const GIVEN := State([Free(Ready, 2), Free(Running, 1).(stamp := 1), Free(Ready, 7)], [[], []], 0, 1, 2)

  lemma TickRollsBack()
    ensures Shaped(Deliver(SECOND2)) && RollBack(Demote(ExpireUpTo(Deliver(SECOND2), 1, 2))) == ROLLED
    ensures Select(ROLLED.tasks, 0) == 0
  {
    var k := Deliver(SECOND2);
    assert ExpireUpTo(k, 1, 1) == k;
    assert ExpireUpTo(k, 1, 2) == k;
    assert Demote(k) == ROLLED && RollBack(ROLLED) == ROLLED;
    assert Eligible(ROLLED.tasks, 0) && IsChoice(ROLLED.tasks, 0, 0);
    SelectIsChoice(ROLLED.tasks, 0);
    ChoiceUnique(ROLLED.tasks, 0, 0, Select(ROLLED.tasks, 0));
  }

  lemma GiveChooses()
    ensures InRange(ROLLED.lists[0], 3) && PopWake(ROLLED, 0) == GIVEN
  {
    var p := Pop(ROLLED, 0);
    var w := SetTask(p, 1, p.tasks[1].(delay := 0, state := Ready));
    assert w.tasks == [Free(Ready, 2), Free(Ready, 1).(stamp := 1), Free(Ready, 7)];
    assert w.lists == [[], []];
    assert Demote(w) == w && RollBack(w) == w && Eligible(w.tasks, 1);
    Decides(w, 1);
    assert Commit(w).tasks == GIVEN.tasks;
  }

  /** SysTick has selected task 0 when an interrupt gives the semaphore. The choice of the
      interrupt is RUNNING, and so is that of SysTick in the end. */
  lemma TwoTasksRun() returns (s: Sys, r: State)
    ensures Reachable(s) && Shaped(s.k) && |s.k.tasks| == 3 && |s.k.lists| == 2
    ensures var b := RollBack(Demote(ExpireUpTo(s.k, 1, 2)));
      && InRange(b.lists[0], |b.tasks|)
      && r == Mark(PopWake(b, 0), Select(b.tasks, b.current))
    ensures |r.tasks| == 3 && r.tasks[0].state.Running? && r.tasks[1].state.Running? && !Inv(r)
  {
    hide Reachable, PopWake, ExpireUpTo, Demote, RollBack, Select, Shape;
    BetterWaits();
    TickRollsBack();
    GiveChooses();
    s := Waiting(Deliver(SECOND2), User, Asleep(Take(0, Forever), 0));
    r := Mark(GIVEN, 0);
  }

  // ---- The task that is being switched out is chosen ----

  const OWN := State([Free(Running, 1), Free(Ready, 2), Free(Ready, 7)], [[], []], 0, 0, 1)
  const LEFT := State([SLEEPER, Free(Running, 2), Free(Ready, 7)], [[0], []], 0, 1, 2)
  const RECALLED := State([Free(Running, 1).(stamp := 1), Free(Ready, 2), Free(Ready, 7)], [[], []], 0, 0, 2)

  function Leaving(k: State, better: Pc): Sys {
    Sys(k, [EMPTY], [better, User, User], [], 0, [], [1, 2, 7], false)
  }

  lemma OwnSleeps()
    ensures Block(OWN, 0, Untimed) == LEFT
  {
    var y := Prepared(OWN.tasks[0], 0, Untimed);
    assert Insert([], SetTask(OWN, 0, y).tasks, 0) == [0];
    var e := Enqueue(SetTask(OWN, 0, y), 0, 0);
    assert e.tasks == [SLEEPER, Free(Ready, 2), Free(Ready, 7)];
    assert Demote(e) == e && RollBack(e) == e && Eligible(e.tasks, 1);
    Decides(e, 1);
    assert Commit(e).tasks == LEFT.tasks;
    assert e.lists == LEFT.lists;
  }

  lemma GiveRecalls()
    ensures InRange(LEFT.lists[0], 3) && PopWake(LEFT, 0) == RECALLED
  {
    var p := Pop(LEFT, 0);
    var w := SetTask(p, 0, p.tasks[0].(delay := 0, state := Ready));
    assert w.tasks == [Free(Ready, 1).(stamp := 1), Free(Running, 2), Free(Ready, 7)];
    assert w.lists == [[], []];
    var b := w.(tasks := [Free(Ready, 1).(stamp := 1), Free(Ready, 2), Free(Ready, 7)]);
    assert Demote(w) == w && RollBack(w) == b && Eligible(b.tasks, 0);
    Decides(w, 0);
    assert Commit(w).tasks == RECALLED.tasks;
  }

  lemma LeavingIsInit()
    ensures Reachable(Leaving(OWN, User))
  {
    hide Reachable, IsRun;
    Begin(Leaving(OWN, User));
  }

  /** Task 0 has blocked and PendSV has loaded task 1, when an interrupt wakes task 0. It is chosen,
      but PendSV is not requested for the current task: task 1 goes on. */
  lemma WrongTaskSwitchedIn() returns (s: Sys, r: State)
    ensures Reachable(s) && Bounds(s.k) && |s.k.lists| == 2 && InRange(s.k.lists[0], |s.k.tasks|)
    ensures r == Stored(PopWake(s.k, 0), s.k.next) && r.next == 0 && r.current == 1
  {
    hide Block, PopWake, Reachable, Shape;
    var take := Take(0, Forever);
    LeavingIsInit();
    Then(Leaving(OWN, User), Call(take), Leaving(OWN, Called(take)));
    OwnSleeps();
    Then(Leaving(OWN, Called(take)), Continue, Leaving(LEFT, Asleep(take, 0)));
    s := Leaving(LEFT, Asleep(take, 0));
    GiveRecalls();
    r := Stored(RECALLED, 1);
  }

  // ---- A turn goes on after its task has blocked elsewhere ----

  const LONE := State([Free(Running, 1), Free(Ready, 7)], [[], [], [], []], 0, 0, 1)
  const TIMED := Tcb(Blocked, 1, 1, Some(0), false, Some(0), 1)
  const LISTED := State([TIMED, Free(Running, 7)], [[0], [], [], []], 0, 1, 2)
  const SERVED := State([Free(Running, 1).(head := Some(0), stamp := 1), Free(Ready, 7)], [[], [], [], []], 1, 0, 2)
  const LEFTOFF := State([Free(Running, 1).(stamp := 1), Free(Ready, 7)], [[], [], [], []], 0, 0, 2)
  const ELSEWHERE := State([Tcb(Blocked, 1, 0, None, false, Some(2), 2), Free(Running, 7)], [[], [], [0], []], 0, 1, 3)

  /** A queue for one item, and a semaphore without tokens. */
  function Two(k: State, q: seq<RingBuffer.Item>, pc: Pc): Sys {
    Sys(k, [Queue(q, 1), EMPTY], [pc, User], [], 0, [], [1, 7], false)
  }

  lemma LoneQueues()
    ensures Block(LONE, 0, Timed(1)) == LISTED
  {
    var y := Prepared(LONE.tasks[0], 0, Timed(1));
    assert Insert([], SetTask(LONE, 0, y).tasks, 0) == [0];
    var e := Enqueue(SetTask(LONE, 0, y), 0, 0);
    assert e.tasks == [TIMED, Free(Ready, 7)];
    assert Demote(e) == e && RollBack(e) == e && IsChoice(e.tasks, 0, 1);
    Decides(e, 1);
    assert Commit(e).tasks == LISTED.tasks;
    assert e.lists == LISTED.lists;
  }

  lemma SendServes()
    ensures InRange(LISTED.lists[0], 2) && PopWake(Deliver(LISTED), 0) == SERVED
  {
    var p := Pop(Deliver(LISTED), 0);
    var w := SetTask(p, 0, p.tasks[0].(delay := 0, state := Ready));
    var d := w.(tasks := [SERVED.tasks[0].(state := Ready), Free(Ready, 7)]);
    assert w.tasks == [SERVED.tasks[0].(state := Ready), Free(Running, 7)];
    assert w.lists == SERVED.lists;
    assert Demote(w) == d && RollBack(d) == d && Eligible(d.tasks, 0);
    Decides(d, 0);
    assert Commit(d).tasks == SERVED.tasks;
  }

  lemma LoneQueuesElsewhere()
    ensures Block(LEFTOFF, 2, Untimed) == ELSEWHERE
  {
    var y := Prepared(LEFTOFF.tasks[0], 2, Untimed);
    assert Insert([], SetTask(LEFTOFF, 0, y).tasks, 0) == [0];
    var e := Enqueue(SetTask(LEFTOFF, 0, y), 0, 2);
    assert e.tasks == [ELSEWHERE.tasks[0], Free(Ready, 7)];
    assert Demote(e) == e && RollBack(e) == e && IsChoice(e.tasks, 0, 1);
    Decides(e, 1);
    assert Commit(e).tasks == ELSEWHERE.tasks;
    assert e.lists == ELSEWHERE.lists;
  }

  lemma TwoIsInit()
    ensures Reachable(Two(LONE, [], User))
  {
    hide Reachable, IsRun;
    Begin(Two(LONE, [], User));
  }

  /** The idle task runs while a receiver waits with one millisecond left. */
  lemma LoneWaits()
    ensures Reachable(Two(Deliver(LISTED), [], Asleep(Recv(0, Until(1)), 0)))
  {
    hide Block, Reachable, Shape;
    var recv := Recv(0, Until(1));
    TwoIsInit();
    Then(Two(LONE, [], User), Call(recv), Two(LONE, [], Called(recv)));
    LoneQueues();
    Then(Two(LONE, [], Called(recv)), Continue, Two(LISTED, [], Asleep(recv, 0)));
    Then(Two(LISTED, [], Asleep(recv, 0)), PendSv, Two(Deliver(LISTED), [], Asleep(recv, 0)));
  }

  /** An interrupt sends; the receiver takes the item. */
  lemma LoneServed(s: Sys)
    requires s == Two(Deliver(LISTED), [], Asleep(Recv(0, Until(1)), 0))
    ensures Reachable(Two(LEFTOFF, [], User)) && Leads(s, Two(LEFTOFF, [], User))
  {
    hide PopWake, Reachable, Leads, Shape;
    var recv := Recv(0, Until(1));
    LoneWaits();
    LeadsHere(s);
    SendServes();
    var a := Two(SERVED, [[]], Asleep(recv, 0));
    var none: seq<RingBuffer.Item> := [];
    assert none + [[]] == [[]];
    OnTheWay(s, s, IsrSend(0, []), a);
    var b := Two(Deliver(SERVED), [[]], Asleep(recv, 0));
    OnTheWay(s, a, PendSv, b);
    assert (none + [[]])[1..] == none;
    assert Finish(b, recv.p).k.tasks == LEFTOFF.tasks;
    OnTheWay(s, b, Continue, Two(LEFTOFF, [], User));
  }

  /** And it waits for a token. */
  lemma LoneElsewhere(s: Sys)
    requires s == Two(Deliver(LISTED), [], Asleep(Recv(0, Until(1)), 0))
    ensures var r := Two(Deliver(ELSEWHERE), [], Asleep(Take(1, Forever), 0)); Reachable(r) && Leads(s, r)
  {
    hide Block, Reachable, Leads, Shape;
    var take := Take(1, Forever);
    LoneServed(s);
    OnTheWay(s, Two(LEFTOFF, [], User), Call(take), Two(LEFTOFF, [], Called(take)));
    LoneQueuesElsewhere();
    OnTheWay(s, Two(LEFTOFF, [], Called(take)), Continue, Two(ELSEWHERE, [], Asleep(take, 0)));
    OnTheWay(s, Two(ELSEWHERE, [], Asleep(take, 0)), PendSv, Two(Deliver(ELSEWHERE), [], Asleep(take, 0)));
  }

  /** In the idle task's `sched_tick_n` the turn of a timed receiver has passed its checks when an
      interrupt wakes it. It takes the item and blocks on a semaphore; then the turn goes on and
      marks it READY on the semaphore's list. */
  lemma ReadyOnAList() returns (s: Sys, r: Sys)
    ensures Reachable(s) && s.k.current == s.k.next == Idle(s.k) && Expires(s.k.tasks[0], 1)
    ensures Leads(s, r) && r.now == s.now && r.k.current == Idle(r.k)
    ensures Shaped(r.k) && |r.k.lists| == 4 && r.k.lists[2] == [0]
    ensures var k := RestOfTurn(r.k, 0);
      Bounds(k) && k.lists[2] == [0] && k.tasks[0].state.Ready? && !Inv(Resched(k))
  {
    hide Reachable, Leads, Shape, Inv;
    s := Two(Deliver(LISTED), [], Asleep(Recv(0, Until(1)), 0));
    LoneWaits();
    LoneElsewhere(s);
    r := Two(Deliver(ELSEWHERE), [], Asleep(Take(1, Forever), 0));
    ReachableInv(r);
    InvOf(r);
    TornTurnIff(r.k, 0);
  }

  lemma InvOf(s: Sys)
    requires SysInv(s)
    ensures Inv(s.k)
  {
  }

  // ---- A wake-up that turns into a time-out ----

  const BOTH := State([Free(Running, 1), Free(Ready, 2), Free(Ready, 7)], [[], []], 0, 0, 1)
  const ONELISTED := State([TIMED, Free(Running, 2), Free(Ready, 7)], [[0], []], 0, 1, 2)
  const PLAIN := Tcb(Blocked, 2, 0, None, false, Some(0), 2)
  const BOTHLISTED := State([TIMED, PLAIN, Free(Running, 7)], [[0, 1], []], 1, 2, 3)
  const ONESERVED := State([SERVED.tasks[0], PLAIN, Free(Ready, 7)], [[1], []], 2, 0, 3)

  /** A queue for one item and two receivers. */
  function Pair2(k: State, q: seq<RingBuffer.Item>, timed: Pc, plain: Pc): Sys {
    Sys(k, [Queue(q, 1)], [timed, plain, User], [], 0, [], [1, 2, 7], false)
  }

  lemma TimedQueues()
    ensures Block(BOTH, 0, Timed(1)) == ONELISTED
  {
    var y := Prepared(BOTH.tasks[0], 0, Timed(1));
    assert Insert([], SetTask(BOTH, 0, y).tasks, 0) == [0];
    var e := Enqueue(SetTask(BOTH, 0, y), 0, 0);
    assert e.tasks == [TIMED, Free(Ready, 2), Free(Ready, 7)];
    assert Demote(e) == e && RollBack(e) == e && Eligible(e.tasks, 1);
    Decides(e, 1);
    assert Commit(e).tasks == ONELISTED.tasks;
    assert e.lists == ONELISTED.lists;
  }

  lemma PlainQueues()
    ensures InRange(ONELISTED.lists[0], 3) && Block(Deliver(ONELISTED), 0, Untimed) == BOTHLISTED
  {
    var k := Deliver(ONELISTED);
    var y := Prepared(k.tasks[1], 0, Untimed);
    assert Insert([0], SetTask(k, 1, y).tasks, 1) == [0, 1];
    var e := Enqueue(SetTask(k, 1, y), 1, 0);
    assert e.tasks == [TIMED, PLAIN, Free(Ready, 7)];
    assert Demote(e) == e && RollBack(e) == e && IsChoice(e.tasks, 1, 2);
    Decides(e, 2);
    assert Commit(e).tasks == BOTHLISTED.tasks;
    assert e.lists == BOTHLISTED.lists;
  }

  lemma SendServesOne()
    ensures InRange(BOTHLISTED.lists[0], 3) && PopWake(Deliver(BOTHLISTED), 0) == ONESERVED
  {
    var p := Pop(Deliver(BOTHLISTED), 0);
    var w := SetTask(p, 0, p.tasks[0].(delay := 0, state := Ready));
    var d := w.(tasks := [SERVED.tasks[0].(state := Ready), PLAIN, Free(Ready, 7)]);
    assert w.tasks == [SERVED.tasks[0].(state := Ready), PLAIN, Free(Running, 7)];
    assert RemoveAt([0, 1], 0) == [1];
    assert w.lists == ONESERVED.lists;
    assert Demote(w) == d && RollBack(d) == d && Eligible(d.tasks, 0);
    Decides(d, 0);
    assert Commit(d).tasks == ONESERVED.tasks;
  }

  lemma PairIsInit()
    ensures Reachable(Pair2(BOTH, [], User, User))
  {
    hide Reachable, IsRun;
    Begin(Pair2(BOTH, [], User, User));
  }

  lemma BothWait()
    ensures Reachable(Pair2(Deliver(BOTHLISTED), [], Asleep(Recv(0, Until(1)), 0), Asleep(Recv(0, Forever), 0)))
  {
    hide Block, Reachable, Shape;
    var timed, plain := Recv(0, Until(1)), Recv(0, Forever);
    PairIsInit();
    Then(Pair2(BOTH, [], User, User), Call(timed), Pair2(BOTH, [], Called(timed), User));
    TimedQueues();
    var a := Pair2(ONELISTED, [], Asleep(timed, 0), User);
    Then(Pair2(BOTH, [], Called(timed), User), Continue, a);
    var b := Pair2(Deliver(ONELISTED), [], Asleep(timed, 0), User);
    Then(a, PendSv, b);
    Then(b, Call(plain), Pair2(Deliver(ONELISTED), [], Asleep(timed, 0), Called(plain)));
    PlainQueues();
    var c := Pair2(BOTHLISTED, [], Asleep(timed, 0), Asleep(plain, 0));
    Then(Pair2(Deliver(ONELISTED), [], Asleep(timed, 0), Called(plain)), Continue, c);
    Then(c, PendSv, Pair2(Deliver(BOTHLISTED), [], Asleep(timed, 0), Asleep(plain, 0)));
  }

  /** The turn of a timed receiver has passed its checks when an interrupt sends and wakes it; the
      turn makes it time out. The item stays in the queue and the other receiver sleeps on. */
  lemma ItemStranded() returns (s: Sys, m: Sys, r: Sys)
    ensures Reachable(s) && |s.k.tasks| == 3 && Expires(s.k.tasks[0], 1) && Shape(s) && Enabled(s, IsrSend(0, []))
    ensures m == Apply(s, IsrSend(0, [])) && Shaped(m.k) && |m.k.tasks| == 3 && r == m.(k := RestOfTurn(m.k, 0))
    ensures Shape(r) && r.objs == [Queue([[]], 1)] && r.k.lists == [[1], []]
    ensures r.k.tasks[0].timedOut && Tokens(r, 0) == {} && !NoLostWakeUp(r)
  {
    hide PopWake, Reachable;
    var timed, plain := Recv(0, Until(1)), Recv(0, Forever);
    BothWait();
    s := Pair2(Deliver(BOTHLISTED), [], Asleep(timed, 0), Asleep(plain, 0));
    ReachableInv(s);
    SendServesOne();
    var none: seq<RingBuffer.Item> := [];
    assert none + [[]] == [[]];
    m := Pair2(ONESERVED, [[]], Asleep(timed, 0), Asleep(plain, 0));
    OutOfTime(s, m);
    r := m.(k := RestOfTurn(m.k, 0));
  }

  lemma OutOfTime(s: Sys, m: Sys)
    requires Reachable(s) && Enabled(s, IsrSend(0, [])) && Shape(s) && m == Apply(s, IsrSend(0, []))
    requires m == Pair2(ONESERVED, [[]], Asleep(Recv(0, Until(1)), 0), Asleep(Recv(0, Forever), 0))
    ensures Shaped(m.k)
    ensures var r := m.(k := RestOfTurn(m.k, 0));
      && Shape(r) && r.objs == m.objs && r.k.lists == m.k.lists && r.k.tasks[0].timedOut
      && Tokens(r, 0) == {} && !NoLostWakeUp(r)
  {
    hide Reachable, Apply, Shape, SysInv;
    Then(s, IsrSend(0, []), m);
    ReachableInv(m);
    ReachableKeeps(m);
    SpuriousTimeoutIff(m, 0, 0);
    assert m.k.tasks[1].on == Some(0);
    OneToken(m);
  }

  lemma ReachableKeeps(s: Sys)
    requires Reachable(s)
    ensures NoLostWakeUp(s)
  {
    var tr, acts :| IsRun(tr, acts) && Init(tr[0]) && tr[|acts|] == s;
    RunKeeps(tr, acts, |acts|);
  }

  lemma OneToken(m: Sys)
    requires m == Pair2(ONESERVED, [[]], Asleep(Recv(0, Until(1)), 0), Asleep(Recv(0, Forever), 0))
    ensures |m.pcs| == |m.k.tasks| && Tokens(m, 0) == {0}
  {
  }

  // ---- A budget gets stale ----

  const ALONE := State([Free(Running, 1), Free(Ready, 7)], [[], []], 0, 0, 1)
  const ASLEEP := State([SLEEPER, Free(Running, 7)], [[0], []], 0, 1, 2)
  const AWOKEN := State([Free(Running, 1).(stamp := 1), Free(Ready, 7)], [[], []], 1, 0, 2)
  const DELAYING := State([Free(Blocked, 1).(delay := 5, stamp := 1), Free(Running, 7)], [[], []], 0, 1, 2)

  function Single(k: State, tokens: Object, pc: Pc): Sys {
    Sys(k, [tokens], [pc, User], [], 0, [], [1, 7], false)
  }

  lemma AloneSleeps()
    ensures Block(ALONE, 0, Untimed) == ASLEEP
  {
    var y := Prepared(ALONE.tasks[0], 0, Untimed);
    assert Insert([], SetTask(ALONE, 0, y).tasks, 0) == [0];
    var e := Enqueue(SetTask(ALONE, 0, y), 0, 0);
    assert e.tasks == [SLEEPER, Free(Ready, 7)];
    assert Demote(e) == e && RollBack(e) == e && IsChoice(e.tasks, 0, 1);
    Decides(e, 1);
    assert Commit(e).tasks == ASLEEP.tasks;
    assert e.lists == ASLEEP.lists;
  }

  lemma GiveAwakes()
    ensures InRange(ASLEEP.lists[0], 2) && PopWake(Deliver(ASLEEP), 0) == AWOKEN
  {
    var p := Pop(Deliver(ASLEEP), 0);
    var w := SetTask(p, 0, p.tasks[0].(delay := 0, state := Ready));
    var d := w.(tasks := [Free(Ready, 1).(stamp := 1), Free(Ready, 7)]);
    assert w.tasks == [Free(Ready, 1).(stamp := 1), Free(Running, 7)];
    assert w.lists == [[], []];
    assert Demote(w) == d && RollBack(d) == d && Eligible(d.tasks, 0);
    Decides(d, 0);
    assert Commit(d).tasks == AWOKEN.tasks;
  }

  lemma AwokenDelays()
    ensures Delay(Deliver(AWOKEN), 5) == DELAYING
  {
    var k := SetTask(Deliver(AWOKEN), 0, DELAYING.tasks[0]);
    assert k.tasks == [DELAYING.tasks[0], Free(Ready, 7)];
    assert RollBack(k) == k && IsChoice(k.tasks, 0, 1);
    Decides(k, 1);
    assert Commit(k).tasks == DELAYING.tasks;
  }

  lemma SingleIsInit()
    ensures Reachable(Single(ALONE, EMPTY, User))
  {
    hide Reachable, IsRun;
    Begin(Single(ALONE, EMPTY, User));
  }

  lemma AloneWaits()
    ensures Reachable(Single(Deliver(ASLEEP), EMPTY, Asleep(Take(0, Forever), 0)))
  {
    hide Block, Reachable, Shape;
    var take := Take(0, Forever);
    SingleIsInit();
    Then(Single(ALONE, EMPTY, User), Call(take), Single(ALONE, EMPTY, Called(take)));
    AloneSleeps();
    Then(Single(ALONE, EMPTY, Called(take)), Continue, Single(ASLEEP, EMPTY, Asleep(take, 0)));
    Then(Single(ASLEEP, EMPTY, Asleep(take, 0)), PendSv, Single(Deliver(ASLEEP), EMPTY, Asleep(take, 0)));
  }

  /** No delay runs when the idle task computes its budget. Then an interrupt wakes a task that
      delays for 5 milliseconds; back in the idle task, a sleep of 1000 oversleeps. */
  lemma Oversleeps() returns (s: Sys, r: Sys)
    ensures Reachable(s) && |s.k.tasks| > 0 && s.k.current == s.k.next == Idle(s.k)
    ensures Tickless.IsNextWakeup(s.k, FOREVER)
    ensures Leads(s, r) && r.now == s.now && r.k.current == r.k.next == Idle(r.k)
    ensures Shaped(r.k) && !WokenOnTime(r.k, TickN(r.k, 1000), 1000)
  {
    hide PopWake, Delay, Reachable, Leads, Shape, Inv, TickN;
    var take, used := Take(0, Forever), Semaphore(0, 1, 1, 1);
    AloneWaits();
    s := Single(Deliver(ASLEEP), EMPTY, Asleep(take, 0));
    LeadsHere(s);
    GiveAwakes();
    var a := Single(AWOKEN, Semaphore(1, 1, 1, 0), Asleep(take, 0));
    OnTheWay(s, s, IsrGive(0), a);
    var b := Single(Deliver(AWOKEN), Semaphore(1, 1, 1, 0), Asleep(take, 0));
    OnTheWay(s, a, PendSv, b);
    var c := Single(Deliver(AWOKEN), used, User);
    OnTheWay(s, b, Continue, c);
    AwokenDelays();
    var d := Single(DELAYING, used, Delaying(5));
    OnTheWay(s, c, StartDelay(5), d);
    r := Single(Deliver(DELAYING), used, Delaying(5));
    OnTheWay(s, d, PendSv, r);
    ReachableInv(r);
    InvOf(r);
    assert r.k.tasks[0].delay == 5;
    StaleBudgetIff(r.k, 1000);
  }

  // ---- The clock wraps during a call ----

  /** Eleven milliseconds before the clock wraps. */
  const LATE: nat := 0xFFFF_FFF5

  const DUE: nat := 0xFFFF_FFFF
  const LONG := State([Free(Blocked, 1).(delay := LATE), Free(Running, 7)], [[], []], 0, 1, 1)
  const TEN := State([TIMED.(delay := 10), Free(Running, 7)], [[0], []], 0, 1, 2)
  const ONE := State([TIMED, Free(Running, 7)], [[0], []], 1, 1, 2)
  const WOKEN := State([Free(Running, 1).(head := Some(0), stamp := 1), Free(Ready, 7)], [[], []], 1, 0, 2)

  /** A queue for one item. */
  function Clocked(k: State, q: seq<RingBuffer.Item>, pc: Pc, now: nat): Sys {
    Sys(k, [Queue(q, 1)], [pc, User], [], now, [], [1, 7], false)
  }

  lemma AloneDelays()
    ensures Delay(ALONE, LATE) == LONG
  {
    var k := SetTask(ALONE, 0, LONG.tasks[0]);
    assert k.tasks == [LONG.tasks[0], Free(Ready, 7)];
    assert RollBack(k) == k && IsChoice(k.tasks, 0, 1);
    Decides(k, 1);
    assert Commit(k).tasks == LONG.tasks;
  }

  lemma LongEnds()
    ensures Shaped(Deliver(LONG)) && TickN(Deliver(LONG), LATE) == ALONE.(current := 1)
  {
    var k := Deliver(LONG);
    var x := k.(tasks := [Free(Ready, 1), Free(Running, 7)]);
    assert ExpireUpTo(k, LATE, 0) == k;
    assert ExpireUpTo(k, LATE, 1) == x;
    var d := x.(tasks := [Free(Ready, 1), Free(Ready, 7)]);
    assert Demote(x) == d && RollBack(d) == d && Eligible(d.tasks, 0);
    Decides(d, 0);
    assert Commit(d).tasks == ALONE.tasks;
  }

  lemma AloneQueues()
    ensures Block(ALONE, 0, Timed(10)) == TEN
  {
    var y := Prepared(ALONE.tasks[0], 0, Timed(10));
    assert Insert([], SetTask(ALONE, 0, y).tasks, 0) == [0];
    var e := Enqueue(SetTask(ALONE, 0, y), 0, 0);
    assert e.tasks == [TEN.tasks[0], Free(Ready, 7)];
    assert Demote(e) == e && RollBack(e) == e && IsChoice(e.tasks, 0, 1);
    Decides(e, 1);
    assert Commit(e).tasks == TEN.tasks;
    assert e.lists == TEN.lists;
  }

  lemma NinePass()
    ensures Shaped(Deliver(TEN)) && TickN(Deliver(TEN), 9) == ONE
  {
    var k := Deliver(TEN);
    var x := k.(tasks := [TIMED, Free(Running, 7)]);
    assert ExpireUpTo(k, 9, 0) == k;
    assert ExpireUpTo(k, 9, 1) == x;
    var d := x.(tasks := [TIMED, Free(Ready, 7)]);
    assert Demote(x) == d && RollBack(d) == d && IsChoice(d.tasks, 1, 1);
    Decides(d, 1);
    assert Commit(d).tasks == ONE.tasks;
  }

  lemma SendAwakes()
    ensures InRange(ONE.lists[0], 2) && PopWake(ONE, 0) == WOKEN
  {
    var p := Pop(ONE, 0);
    var w := SetTask(p, 0, p.tasks[0].(delay := 0, state := Ready));
    var d := w.(tasks := [WOKEN.tasks[0].(state := Ready), Free(Ready, 7)]);
    assert w.tasks == [WOKEN.tasks[0].(state := Ready), Free(Running, 7)];
    assert w.lists == [[], []];
    assert Demote(w) == d && RollBack(d) == d && Eligible(d.tasks, 0);
    Decides(d, 0);
    assert Commit(d).tasks == WOKEN.tasks;
  }

  lemma WokenTicks()
    ensures Shaped(Deliver(WOKEN)) && TickN(Deliver(WOKEN), 1) == Deliver(WOKEN)
  {
    var k := Deliver(WOKEN);
    assert ExpireUpTo(k, 1, 0) == k;
    assert ExpireUpTo(k, 1, 1) == k;
    var d := k.(tasks := [WOKEN.tasks[0].(state := Ready), Free(Ready, 7)]);
    assert Demote(k) == d && RollBack(d) == d && Eligible(d.tasks, 0);
    Decides(d, 0);
    assert Commit(d).tasks == k.tasks;
  }

  lemma ClockedIsInit()
    ensures Reachable(Clocked(ALONE, [], User, 0))
  {
    hide Reachable, IsRun;
    Begin(Clocked(ALONE, [], User, 0));
  }

  /** A task is woken eleven milliseconds before the wrap. */
  lemma LateAwake()
    ensures Reachable(Clocked(ALONE, [], Delaying(LATE), LATE))
  {
    hide Delay, TickN, Reachable, Shape;
    ClockedIsInit();
    AloneDelays();
    Then(Clocked(ALONE, [], User, 0), StartDelay(LATE), Clocked(LONG, [], Delaying(LATE), 0));
    Then(Clocked(LONG, [], Delaying(LATE), 0), PendSv, Clocked(Deliver(LONG), [], Delaying(LATE), 0));
    LongEnds();
    var a := Clocked(ALONE.(current := 1), [], Delaying(LATE), LATE);
    Then(Clocked(Deliver(LONG), [], Delaying(LATE), 0), Action.Sleep(LATE), a);
    Then(a, PendSv, Clocked(ALONE, [], Delaying(LATE), LATE));
  }

  /** It starts to wait for 10 milliseconds, up to the last one before the wrap. */
  lemma LateCall()
    ensures Reachable(Clocked(Deliver(TEN), [], Asleep(Recv(0, Until(DUE)), 0), LATE))
  {
    hide Block, Reachable, Shape;
    var recv := Recv(0, Until(DUE));
    LateAwake();
    Then(Clocked(ALONE, [], Delaying(LATE), LATE), Continue, Clocked(ALONE, [], User, LATE));
    Then(Clocked(ALONE, [], User, LATE), Call(recv), Clocked(ALONE, [], Called(recv), LATE));
    AloneQueues();
    Then(Clocked(ALONE, [], Called(recv), LATE), Continue, Clocked(TEN, [], Asleep(recv, 0), LATE));
    Then(Clocked(TEN, [], Asleep(recv, 0), LATE), PendSv, Clocked(Deliver(TEN), [], Asleep(recv, 0), LATE));
  }

  /** An interrupt sends in time. */
  lemma SentInTime()
    ensures Reachable(Clocked(Deliver(WOKEN), [[]], Asleep(Recv(0, Until(DUE)), 0), LATE + 9))
  {
    hide TickN, PopWake, Reachable, Shape;
    var pc := Asleep(Recv(0, Until(DUE)), 0);
    var none: seq<RingBuffer.Item> := [];
    LateCall();
    NinePass();
    Then(Clocked(Deliver(TEN), [], pc, LATE), Action.Sleep(9), Clocked(ONE, [], pc, LATE + 9));
    SendAwakes();
    assert none + [[]] == [[]];
    Then(Clocked(ONE, [], pc, LATE + 9), IsrSend(0, []), Clocked(WOKEN, [[]], pc, LATE + 9));
    Then(Clocked(WOKEN, [[]], pc, LATE + 9), PendSv, Clocked(Deliver(WOKEN), [[]], pc, LATE + 9));
  }

  /** Another one takes the item before the receiver has it, and the clock wraps. */
  lemma RaceLost()
    ensures Reachable(Clocked(Deliver(WOKEN), [], Asleep(Recv(0, Until(DUE)), 0), DUE + 1))
  {
    hide TickN, PopWake, Reachable, Shape;
    var pc := Asleep(Recv(0, Until(DUE)), 0);
    var none: seq<RingBuffer.Item> := [];
    SentInTime();
    NobodyPopped();
    assert (none + [[]])[1..] == none && none + [[]] == [[]];
    Then(Clocked(Deliver(WOKEN), [[]], pc, LATE + 9), IsrRecv(0), Clocked(Deliver(WOKEN), [], pc, LATE + 9));
    WokenTicks();
    Then(Clocked(Deliver(WOKEN), [], pc, LATE + 9), Action.Tick, Clocked(Deliver(WOKEN), [], pc, DUE));
    Then(Clocked(Deliver(WOKEN), [], pc, DUE), Action.Tick, Clocked(Deliver(WOKEN), [], pc, DUE + 1));
  }

  lemma NobodyPopped()
    ensures PopWake(Deliver(WOKEN), 1) == Deliver(WOKEN)
  {
  }

  /** A call of 10 milliseconds whose deadline does not wrap is past it, retries, and waits for
      another 49 days. */
  lemma WaitsAgain() returns (s: Sys, r: Sys)
    ensures Reachable(s) && Reachable(r) && Shape(s) && Enabled(s, Continue) && r == Apply(s, Continue)
    ensures s.pcs[0] == Asleep(Recv(0, Until(DUE)), 0) && s.now == DUE + 1
    ensures r.pcs[0] == s.pcs[0] && |r.k.tasks| == 2 && r.k.tasks[0].state.Blocked? && r.k.tasks[0].delay == 0xFFFF_FFFF
  {
    hide Block, Apply, Enabled, Reachable, Shape;
    RaceLost();
    s := Clocked(Deliver(WOKEN), [], Asleep(Recv(0, Until(DUE)), 0), DUE + 1);
    ReachableInv(s);
    Rearms(s);
    BlockEffect(s.k, 0, Timed(0xFFFF_FFFF));
    r := Apply(s, Continue);
    Then(s, Continue, r);
  }

  lemma Rearms(s: Sys)
    requires Shape(s) && s == Clocked(Deliver(WOKEN), [], Asleep(Recv(0, Until(DUE)), 0), DUE + 1)
    ensures InRange(s.k.lists[0], |s.k.tasks|) && Enabled(s, Continue)
    ensures var r := Apply(s, Continue);
      r.k == Block(s.k, 0, Timed(0xFFFF_FFFF)) && r.pcs[0] == s.pcs[0] && s.k.current == 0
  {
    hide Block, Shaped, OwnerFits, PcFits;
  }
}
