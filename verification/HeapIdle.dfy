/** The two sources of time on the heap: `SysTick_Handler` and one turn of `idle_task_func`. */
module HeapIdle {
  import opened Kernel
  import opened Heap
  import opened HeapScheduler
  import opened Timers
  import opened TimerRuns
  import T = Tickless

  /** `sched_get_next_wakeup_ms`. */
  method NextWakeup(s: Scheduler) returns (soonest: Word)
    requires s.Valid()
    ensures |s.k.tasks| == |s.tasks| > 0 && T.IsNextWakeup(s.k, soonest)
  {
    hide s.Valid, Shaped, Bounds;
    Globals(s);
    soonest := FOREVER;
    var i := 0;
    while i < |s.tasks| - 1
      invariant 0 <= i <= |s.tasks| - 1 && soonest <= FOREVER
      invariant forall t :: 0 <= t < i && T.Delayed(s.k.tasks[t]) ==> soonest <= s.k.tasks[t].delay
      invariant soonest < FOREVER ==> exists t :: 0 <= t < i && T.Delayed(s.k.tasks[t]) && s.k.tasks[t].delay == soonest
    {
      ReadTcb(s, i);
      if s.tasks[i].state.Blocked? && s.tasks[i].delay > 0 {
        assert T.Delayed(s.k.tasks[i]);
        if s.tasks[i].delay < soonest {
          soonest := s.tasks[i].delay;
        }
      }
      i := i + 1;
    }
    forall t | 0 <= t < |s.k.tasks| - 1 && s.k.tasks[t].state.Blocked? && s.k.tasks[t].delay > 0
      ensures soonest <= s.k.tasks[t].delay
    {
      assert T.Delayed(s.k.tasks[t]);
    }
  }

  /** `w` is the pool and the clock: the true time is what a wrapping counter shows of it. */
  ghost predicate Keeps(pool: TimerPool, tick: T.SysTick, w: Wheel)
    reads pool.slots, tick
  {
    w.timers == pool.slots[..] && tick.ticks == Shown(w.time)
  }

  /** `timer_service_tick` at the present time. */
  method ServiceNow(pool: TimerPool, tick: T.SysTick, ghost w: Wheel) returns (ghost r: Wheel)
    requires Keeps(pool, tick, w)
    modifies pool.slots
    ensures r == Service(w) && Keeps(pool, tick, r)
  {
    hide Shown, Serviced, DueSlots, Firings;
    var called := pool.ServiceTick(tick.ticks);
    r := Service(w);
    assert pool.slots[..] == ServiceAll(w.timers, Shown(w.time));
  }

  /** `SysTick_Handler` once the scheduler has started; during a tickless sleep it does nothing. */
  method SysTickHandler(s: Scheduler, pool: TimerPool, tick: T.SysTick, ghost w: Wheel) returns (ghost r: Wheel)
    requires s.Valid() && Keeps(pool, tick, w)
    modifies s`k, s`next, s`links, s`firsts, s.nodes, s.cells`first, pool.slots, tick
    ensures s.Valid() && Keeps(pool, tick, r) && Shaped(old(s.k))
    ensures T.Board(s.k, r) == if old(tick.tickless) then T.Board(old(s.k), w) else T.Tick(T.Board(old(s.k), w))
  {
    hide s.Valid, Shaped, TickN, Service, Shown;
    Globals(s);
    if tick.tickless {
      return w;
    }
    tick.ticks := Add(tick.ticks, 1);
    AddShown(w.time, 1);
    ghost var w1 := w.(time := w.time + 1);
    SchedTickN(s, 1);
    r := ServiceNow(pool, tick, w1);
  }

  lemma SleepAllowed(k: State, w: Wheel, task: nat, timer: nat, e: nat)
    requires |k.tasks| > 0 && T.IsNextWakeup(k, task) && IsNextReady(w.timers, Shown(w.time), timer)
    requires 1 <= e <= T.IdleBudget(task, timer)
    ensures T.MaySleep(T.Board(k, w), e)
  {
  }

  /** One turn of the loop of `idle_task_func`: `expired` and `left` are what the counter
      shows after `wfi`. A turn whose budget is 0 only waits. PendSV, if it was requested,
      comes before the timers are serviced. */
  method IdleTurn(s: Scheduler, pool: TimerPool, tick: T.SysTick, enabled: bool, expired: bool, left: nat, ghost w: Wheel)
    returns (elapsed: Word, ghost r: Wheel)
    requires s.Valid() && Keeps(pool, tick, w) && tick.perMs > 0
    modifies s`k, s`next, s`links, s`firsts, s.nodes, s.cells`first, pool.slots, tick
    ensures s.Valid() && Keeps(pool, tick, r) && Shaped(old(s.k))
    ensures elapsed == 0 ==> s.k == old(s.k) && r == w && tick.ticks == old(tick.ticks)
    ensures elapsed > 0 ==>
      && enabled && |old(s.k).tasks| > 0
      && T.MaySleep(T.Board(old(s.k), w), elapsed)
      && T.Board(s.k, r) == T.Iterated(T.Board(old(s.k), w), elapsed)
  {
    hide s.Valid, Shaped, TickN, Service, Shown, T.IsNextWakeup, IsNextReady, T.MaySleep, T.ReloadFor, T.ElapsedMs;
    Globals(s);
    elapsed, r := 0, w;
    if !enabled {
      return;
    }
    var task := NextWakeup(s);
    var timer := pool.NextReady(tick.ticks);
    var budget := if task < timer then task else timer;
    if budget > T.MAX_SLEEP {
      budget := T.MAX_SLEEP;
    }
    if budget == 0 {
      return;
    }
    elapsed := tick.Sleep(budget, T.Counter(expired, left % T.ReloadFor(budget, tick.perMs)));
    SleepAllowed(s.k, w, task, timer, elapsed);
    AddShown(w.time, elapsed);
    r := w.(time := w.time + elapsed);
    SchedTickN(s, elapsed);
    Globals(s);
    if s.next == s.current {
      r := ServiceNow(pool, tick, r);
    }
  }
}
