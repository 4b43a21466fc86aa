/** Tickless idle: how long a sleep may and does last, and why one idle iteration equals the
    SysTick interrupts it replaces. */
module Tickless {
  import opened Selection
  import opened Kernel
  import opened KernelLemmas
  import opened Ticks
  import opened Timers
  import opened TimerRuns
  import opened System
  import opened Arithmetic

  // ---- systick_tickless_sleep ----

  const MAX_RELOAD: nat := 0xFF_FFFF

  /** A tick count reduced to 32 bits and capped to the 24-bit counter. */
  function Clip(ticks: nat): (r: nat)
    ensures 1 <= r <= MAX_RELOAD
  {
    var low := ticks % TWO32;
    if low == 0 || low > MAX_RELOAD then MAX_RELOAD else low
  }

  /** `reload_ticks`: the 32-bit product may wrap. */
  function ReloadFor(maxMs: Word, perMs: Word): (r: nat)
    ensures 1 <= r <= MAX_RELOAD
  {
    Clip(maxMs * perMs)
  }

  /** What the counter shows on wake-up: COUNTFLAG and SYST_CVR. */
  datatype Counter = Counter(expired: bool, value: nat)

  function ElapsedTicks(reload: nat, c: Counter): nat
    requires c.value < reload
  {
    if c.expired then reload else reload - 1 - c.value
  }

  function WholeMs(ticks: nat, perMs: nat): nat
    requires perMs > 0
  {
    ticks / perMs
  }

  function ElapsedMs(maxMs: Word, perMs: Word, c: Counter): nat
    requires perMs > 0 && c.value < ReloadFor(maxMs, perMs)
  {
    var ms := WholeMs(ElapsedTicks(ReloadFor(maxMs, perMs), c), perMs);
    if ms == 0 then 1 else ms
  }

  /** Even where the product wraps, it does not grow. */
  lemma ClipBounded(ticks: nat)
    requires ticks > 0
    ensures Clip(ticks) <= ticks
    ensures ticks <= MAX_RELOAD ==> Clip(ticks) == ticks
    ensures MAX_RELOAD <= ticks < TWO32 ==> Clip(ticks) == MAX_RELOAD
  {
  }

  lemma WholeMsBounded(x: nat, a: nat, b: nat)
    requires b > 0 && x <= a * b
    ensures WholeMs(x, b) <= a
    ensures x == a * b ==> WholeMs(x, b) == a
  {
    var q := x / b;
    assert x == q * b + x % b;
    MonotoneProduct(a + 1, q, b);
    MonotoneProduct(q + 1, a, b);
  }

  /** A sleep of at most `maxMs` counts at least 1 and at most `maxMs` milliseconds, for
      every clock rate, every wake-up and every overflow of the product. */
  lemma SleepWithinBudget(maxMs: Word, perMs: Word, c: Counter)
    requires maxMs > 0 && perMs > 0 && c.value < ReloadFor(maxMs, perMs)
    ensures 1 <= ElapsedMs(maxMs, perMs, c) <= maxMs
  {
    hide Clip, WholeMs;
    ProductPositive(maxMs, perMs);
    ClipBounded(maxMs * perMs);
    WholeMsBounded(ElapsedTicks(ReloadFor(maxMs, perMs), c), maxMs, perMs);
  }

  /** The reload value is budget times rate, cut off at the 24 bits of the counter, as long as
      the product itself does not wrap. */
  lemma ReloadIs(maxMs: Word, perMs: Word)
    requires maxMs > 0 && perMs > 0 && maxMs * perMs < TWO32
    ensures ReloadFor(maxMs, perMs) == Min(maxMs * perMs, 0xFF_FFFF)
  {
    hide Clip;
    ProductPositive(maxMs, perMs);
    ClipBounded(maxMs * perMs);
  }

  /** The counter shows that `t` ticks have passed: it counts down from `reload - 1`, and
      COUNTFLAG says that it has run out. */
  predicate Shows(reload: nat, c: Counter, t: nat) {
    c.value < reload && if c.expired then t >= reload else t == reload - 1 - c.value
  }

  /** A sleep counts the whole milliseconds that have passed until the counter ran out, and
      1 if there are none. */
  lemma CountsWhatPassed(maxMs: Word, perMs: Word, c: Counter, t: nat)
    requires perMs > 0 && Shows(ReloadFor(maxMs, perMs), c, t)
    ensures var p := Min(t, ReloadFor(maxMs, perMs));
      ElapsedMs(maxMs, perMs, c) == if p < perMs then 1 else p / perMs
  {
    hide Clip, WholeMs;
    NoWholeMs(Min(t, ReloadFor(maxMs, perMs)), perMs);
  }

  lemma NoWholeMs(ticks: nat, perMs: nat)
    requires perMs > 0
    ensures WholeMs(ticks, perMs) == ticks / perMs && (WholeMs(ticks, perMs) == 0 <==> ticks < perMs)
  {
    var q := ticks / perMs;
    assert ticks == q * perMs + ticks % perMs;
    MonotoneProduct(1, q, perMs);
  }

  /** Woken after `t` ticks, before the counter has run out. */
  lemma EarlyWakeCounts(maxMs: Word, perMs: Word, t: nat)
    requires perMs > 0 && t < ReloadFor(maxMs, perMs)
    ensures var c := Counter(false, ReloadFor(maxMs, perMs) - 1 - t);
      ElapsedMs(maxMs, perMs, c) == if t < perMs then 1 else t / perMs
  {
    CountsWhatPassed(maxMs, perMs, Counter(false, ReloadFor(maxMs, perMs) - 1 - t), t);
  }

  /** A sleep that runs out counts exactly the budget, if the 24-bit counter can hold it. */
  lemma FullSleepIsExact(maxMs: Word, perMs: Word, c: Counter)
    requires maxMs > 0 && perMs > 0 && c.value < ReloadFor(maxMs, perMs) && c.expired
    requires maxMs * perMs <= MAX_RELOAD
    ensures ElapsedMs(maxMs, perMs, c) == maxMs
  {
    hide Clip, WholeMs;
    ProductPositive(maxMs, perMs);
    ClipBounded(maxMs * perMs);
    WholeMsBounded(maxMs * perMs, maxMs, perMs);
  }

  /** The tick source: `s_ticks`, `s_tickless_active` and the reload register. */
  class SysTick {
    const perMs: Word
    var ticks: Word
    var tickless: bool
    var reload: Word

    constructor (coreTicksPerMs: Word)
      requires coreTicksPerMs > 0
      ensures perMs == coreTicksPerMs && ticks == 0 && !tickless && reload == perMs - 1
    {
      perMs := coreTicksPerMs;
      ticks := 0;
      tickless := false;
      reload := coreTicksPerMs - 1;
    }

    /** `systick_tickless_sleep`; `c` is what the counter shows after `wfi`. */
    method Sleep(maxMs: Word, c: Counter) returns (elapsed: Word)
      requires perMs > 0 && (maxMs > 0 ==> c.value < ReloadFor(maxMs, perMs))
      modifies this
      ensures maxMs == 0 ==> elapsed == 0 && ticks == old(ticks) && reload == old(reload) && tickless == old(tickless)
      ensures maxMs > 0 ==>
        && 1 <= elapsed <= maxMs && elapsed == ElapsedMs(maxMs, perMs, c)
        && ticks == Add(old(ticks), elapsed) && reload == perMs - 1 && !tickless
      ensures maxMs > 0 ==> forall t: nat :: Shows(ReloadFor(maxMs, perMs), c, t) ==>
        var p := Min(t, ReloadFor(maxMs, perMs)); elapsed == if p < perMs then 1 else p / perMs
    {
      if maxMs == 0 {
        return 0;
      }
      var reloadTicks := maxMs * perMs % TWO32;
      if reloadTicks == 0 || reloadTicks > MAX_RELOAD {
        reloadTicks := MAX_RELOAD;
      }
      SleepWithinBudget(maxMs, perMs, c);
      ghost var ms := ElapsedMs(maxMs, perMs, c);
      reload := reloadTicks - 1;
      tickless := true;
      tickless := false;
      var elapsedTicks;
      if c.expired {
        elapsedTicks := reloadTicks;
      } else {
        elapsedTicks := reloadTicks - 1 - c.value;
      }
      elapsed := elapsedTicks / perMs;
      if elapsed == 0 {
        elapsed := 1;
      }
      reload := perMs - 1;
      ticks := Add(ticks, elapsed);
      forall t: nat | Shows(ReloadFor(maxMs, perMs), c, t)
        ensures var p := Min(t, ReloadFor(maxMs, perMs)); elapsed == if p < perMs then 1 else p / perMs
      {
        CountsWhatPassed(maxMs, perMs, c, t);
      }
    }
  }

  // ---- The idle iteration ----

  /** The scheduler and the timers together. */
  datatype Board = Board(k: State, w: Wheel)

  /** `SysTick_Handler`. */
  ghost function Tick(b: Board): Board
    requires Shaped(b.k)
  {
    Board(TickN(b.k, 1), After(b.w, TickEvent))
  }

  ghost function TickTimes(b: Board, e: nat): (r: Board)
    requires Shaped(b.k)
    ensures r.k == TickMany(b.k, e)
  {
    if e == 0 then b else Tick(TickTimes(b, e - 1))
  }

  /** `sched_get_next_wakeup_ms`: the shortest running delay, `FOREVER` if there is none. */
  ghost predicate IsNextWakeup(k: State, b: nat)
    requires |k.tasks| > 0
  {
    && b <= FOREVER
    && WithinBudget(k, b)
    && (b < FOREVER ==> exists t :: 0 <= t < |k.tasks| - 1 && Delayed(k.tasks[t]) && k.tasks[t].delay == b)
  }

  predicate Delayed(x: Tcb) {
    x.state.Blocked? && x.delay > 0
  }

  const MAX_SLEEP: nat := 1000

  /** The idle task's budget, from the soonest wake-up and the soonest timer. */
  function IdleBudget(task: nat, timer: nat): (b: nat)
    ensures b <= task && b <= timer && b <= 1000 && (b == task || b == timer || b == 1000)
  {
    Min(Min(task, timer), MAX_SLEEP)
  }

  /** A sleep of `e` milliseconds within the idle task's budget. */
  ghost predicate MaySleep(b: Board, e: nat)
    requires |b.k.tasks| > 0
  {
    exists task, timer :: IsNextWakeup(b.k, task) && IsNextReady(b.w.timers, Shown(b.w.time), timer)
      && 1 <= e <= IdleBudget(task, timer)
  }

  /** The idle task sleeps for whatever `systick_tickless_sleep` makes of its budget, which is
      a step that both the kernel machine and the timers allow. */
  lemma IdleSleepAllowed(s: Sys, w: Wheel, task: nat, timer: nat, perMs: Word, c: Counter)
    requires Shape(s) && s.k.current == s.k.next == |s.k.tasks| - 1
    requires IsNextWakeup(s.k, task) && IsNextReady(w.timers, Shown(w.time), timer)
    requires IdleBudget(task, timer) > 0 && perMs > 0 && c.value < ReloadFor(IdleBudget(task, timer), perMs)
    ensures var e := ElapsedMs(IdleBudget(task, timer), perMs, c);
      MaySleep(Board(s.k, w), e) && Enabled(s, Sleep(e)) && MayHappen(w, SleepEvent(e))
  {
    hide ReloadFor, ElapsedMs, Shaped;
    SleepWithinBudget(IdleBudget(task, timer), perMs, c);
  }

  /** The sleep and `sched_tick_n`, the timers not serviced yet. */
  ghost function Slept(b: Board, e: nat): Board
    requires Shaped(b.k)
  {
    Board(TickN(b.k, e), Later(b.w, e))
  }

  /** The rest of the iteration, `timer_service_tick`. */
  ghost function ServiceBoard(b: Board): Board {
    b.(w := Service(b.w))
  }

  /** Before its budget is used up no timer is due. */
  lemma QuietBefore(ts: seq<Timer>, time: nat, timer: nat, j: nat, n: nat)
    requires IsNextReady(ts, Shown(time), timer) && 1 <= j < timer && n <= |ts|
    ensures DueSlots(ts, Shown(time + j), n) == []
    ensures forall i :: 0 <= i < n ==> Serviced(ts[i], Shown(time + j)) == ts[i]
  {
    if n > 0 {
      QuietBefore(ts, time, timer, j, n - 1);
      if Runs(ts[n - 1]) {
        NotYet(ts[n - 1], time, j);
      }
    }
  }

  lemma NotYet(t: Timer, time: nat, j: nat)
    requires Runs(t) && 1 <= j < Remaining(t, Shown(time))
    ensures !Due(t, Shown(time + j))
  {
    var d := Remaining(t, Shown(time));
    DeadlineShown(t, time, d);
    DueExactly(t, time + d, time + j);
  }

  lemma DeadlineShown(t: Timer, time: nat, d: nat)
    requires Sub(t.deadline, Shown(time)) == d
    ensures t.deadline == Shown(time + d)
  {
    var a, c := time / TWO32, (time + d) / TWO32;
    assert time == a * TWO32 + Shown(time);
    assert time + d == c * TWO32 + Shown(time + d);
    assert d == t.deadline - Shown(time) || d == t.deadline - Shown(time) + TWO32;
    assert time + d == a * TWO32 + t.deadline || time + d == (a + 1) * TWO32 + t.deadline;
  }

  lemma QuietService(w: Wheel, timer: nat, j: nat)
    requires IsNextReady(w.timers, Shown(w.time), timer) && 1 <= j < timer
    ensures Service(w.(time := w.time + j)) == w.(time := w.time + j)
  {
    QuietBefore(w.timers, w.time, timer, j, |w.timers|);
    assert ServiceAll(w.timers, Shown(w.time + j)) == w.timers;
    assert w.calls + Firings([], w.time + j) == w.calls;
  }

  /** Ticks within the budget leave the timers alone until the last one. */
  lemma {:induction false} QuietTicks(b: Board, timer: nat, j: nat)
    requires Shaped(b.k) && IsNextReady(b.w.timers, Shown(b.w.time), timer) && j < timer
    ensures TickTimes(b, j).w == b.w.(time := b.w.time + j)
  {
    hide TickN, Service;
    if j > 0 {
      QuietTicks(b, timer, j - 1);
      QuietService(b.w, timer, j);
    }
  }

  /** Sleep, `sched_tick_n` and service together equal `e` SysTick interrupts. */
  lemma ServicedIsTicking(b: Board, e: nat)
    requires Inv(b.k) && MaySleep(b, e)
    ensures Shaped(b.k) && ServiceBoard(Slept(b, e)) == TickTimes(b, e)
  {
    hide TickN, TickMany, TickTimes, Inv, Linked, Shaped, IsNextWakeup, IsNextReady, Service;
    LinkedInInv(b.k);
    LinkedShaped(b.k);
    var task, timer :| IsNextWakeup(b.k, task) && IsNextReady(b.w.timers, Shown(b.w.time), timer)
      && 1 <= e <= IdleBudget(task, timer);
    TickManyIsTickN(b.k, e - 1);
    LastTickServices(b, timer, e);
  }

  lemma LastTickServices(b: Board, timer: nat, e: nat)
    requires Shaped(b.k) && IsNextReady(b.w.timers, Shown(b.w.time), timer) && 1 <= e <= timer
    ensures TickTimes(b, e).w == Service(b.w.(time := b.w.time + e))
  {
    hide TickN, Service;
    QuietTicks(b, timer, e - 1);
  }

  lemma LinkedInInv(k: State)
    requires Inv(k)
    ensures Linked(k) && |k.tasks| > 0
  {
  }

  // ---- The switch comes before the timers ----

  /** What the iteration does in fact: when `sched_tick_n` chooses another task, PendSV takes
      the processor away before `timer_service_tick` is reached. */
  ghost function Iterated(b: Board, e: nat): Board
    requires Shaped(b.k)
  {
    var s := Slept(b, e);
    if s.k.next == s.k.current then ServiceBoard(s) else s
  }

  /** The idle task runs because no other task can. */
  ghost predicate Idling(k: State) {
    && Inv(k) && k.current == k.next == |k.tasks| - 1
    && forall t :: 0 <= t < |k.tasks| - 1 ==> k.tasks[t].state.Blocked?
  }

  /** One idle iteration that sleeps `e` milliseconds leaves the same clock, tasks, delays, wait
      lists, choice, timers and callback calls as `e` SysTick interrupts: at once if no other
      task is chosen, and else when the idle task has run again and serviced the timers. */
  lemma TicklessIsTicking(b: Board, e: nat)
    requires Inv(b.k) && MaySleep(b, e)
    ensures Shaped(b.k)
    ensures if Slept(b, e).k.next == b.k.current then Iterated(b, e) == TickTimes(b, e)
            else ServiceBoard(Iterated(b, e)) == TickTimes(b, e)
  {
    hide TickN, MaySleep, TickTimes, Service;
    ServicedIsTicking(b, e);
    SameCurrent(b.k, e);
  }

  ghost predicate SomeExpires(k: State, e: nat) {
    exists t :: 0 <= t < |k.tasks| - 1 && Expires(k.tasks[t], e)
  }

  ghost predicate SomeDue(ts: seq<Timer>, now: Word) {
    exists i :: 0 <= i < |ts| && Due(ts[i], now)
  }

  lemma DecidedIdles(k: State)
    requires Inv(k) && Decided(k) && k.current == k.next == |k.tasks| - 1
    ensures Idling(k)
  {
    forall t | 0 <= t < |k.tasks| - 1 ensures k.tasks[t].state.Blocked? {
      assert IsReady(k.tasks, t) || k.tasks[t].state.Running? || k.tasks[t].state.Blocked?;
    }
  }

  /** The switch happens just when some delay runs out. */
  lemma SwitchesOnExpiry(k: State, e: nat)
    requires Idling(k)
    ensures Shaped(k) && (TickN(k, e).next == k.current <==> !SomeExpires(k, e))
  {
    hide TickN;
    LinkedShaped(k);
    TickInv(k, e);
    TickAges(k, e);
    var r := TickN(k, e);
    if SomeExpires(k, e) {
      var t :| 0 <= t < |k.tasks| - 1 && Expires(k.tasks[t], e);
      assert !r.tasks[t].state.Blocked?;
      assert r.tasks[t].state.Running? || IsReady(r.tasks, t);
    } else {
      assert TaskOk(r, r.next);
      assert r.tasks[r.next].state.Running?;
    }
  }

  lemma DueSlotsSome(ts: seq<Timer>, now: Word, n: nat)
    requires n <= |ts| && forall i :: 0 <= i < |ts| && ts[i].inUse ==> ts[i].callback.Some?
    ensures DueSlots(ts, now, n) != [] <==> exists i :: 0 <= i < n && Due(ts[i], now)
  {
    if n > 0 {
      DueSlotsSome(ts, now, n - 1);
      assert Due(ts[n - 1], now) ==> ts[n - 1].inUse;
    }
  }

  lemma CalledLength(slots: seq<nat>, time: nat)
    ensures |Firings(slots, time)| == |slots|
  {
  }

  lemma ServiceQuietIff(w: Wheel)
    requires forall i :: 0 <= i < |w.timers| && w.timers[i].inUse ==> w.timers[i].callback.Some?
    ensures Service(w) == w <==> !SomeDue(w.timers, Shown(w.time))
  {
    var now := Shown(w.time);
    DueSlotsSome(w.timers, now, |w.timers|);
    CalledLength(DueSlots(w.timers, now, |w.timers|), w.time);
    if SomeDue(w.timers, now) {
      assert |Service(w).calls| > |w.calls|;
    } else {
      assert ServiceAll(w.timers, now) == w.timers;
      assert Service(w).calls == w.calls;
    }
  }

  /** The tick-by-tick and the tickless kernel agree after the iteration unless a task's delay
      and a timer run out in the same millisecond; then the callbacks are not called yet. */
  lemma IteratedIsTickingIff(b: Board, e: nat)
    requires Idling(b.k) && MaySleep(b, e)
    requires forall i :: 0 <= i < |b.w.timers| && b.w.timers[i].inUse ==> b.w.timers[i].callback.Some?
    ensures Shaped(b.k)
    ensures Iterated(b, e) == TickTimes(b, e)
      <==> !(SomeExpires(b.k, e) && SomeDue(b.w.timers, Shown(b.w.time + e)))
  {
    hide TickN, SomeExpires, SomeDue, MaySleep, Service;
    ServicedIsTicking(b, e);
    SwitchesOnExpiry(b.k, e);
    ServiceQuietIff(b.w.(time := b.w.time + e));
    SameCurrent(b.k, e);
  }

  lemma SameCurrent(k: State, e: nat)
    requires Shaped(k)
    ensures TickN(k, e).current == k.current
  {
  }

  /** What the iteration is to the timers: a sleep that ends with their service, unless some
      delay runs out with it. */
  lemma IterationIsEvent(b: Board, e: nat)
    requires Idling(b.k) && MaySleep(b, e)
    ensures Shaped(b.k)
    ensures var v := if SomeExpires(b.k, e) then SwitchEvent(e) else SleepEvent(e);
      MayHappen(b.w, v) && Iterated(b, e).w == After(b.w, v)
  {
    hide TickN, SomeExpires, Service;
    SwitchesOnExpiry(b.k, e);
    SameCurrent(b.k, e);
  }

  /** Callbacks that a switch has put off come with the next service, whatever the tasks `k` do
      meanwhile: on time if the idle task runs again within the millisecond, and with the next
      SysTick, one millisecond late, otherwise. */
  lemma CalledAtNextService(b: Board, e: nat, i: nat, k: State)
    requires Idling(b.k) && MaySleep(b, e) && i < |b.w.timers| && b.w.timers[i].callback.Some?
    requires Due(b.w.timers[i], Shown(b.w.time + e)) && SomeExpires(b.k, e) && Shaped(k)
    ensures Shaped(b.k)
    ensures var w, called := Iterated(b, e).w, CallsOf(b.w.calls, i);
      && CallsOf(w.calls, i) == called
      && CallsOf(ServiceBoard(Board(k, w)).w.calls, i) == called + [b.w.time + e]
      && CallsOf(Tick(Board(k, w)).w.calls, i) == called + [b.w.time + e + 1]
  {
    hide TickN, CallsOf, Service, Iterated, SomeExpires, Idling, Shown, Remaining, Sub;
    IterationIsEvent(b, e);
    assert 1 <= e <= Remaining(b.w.timers[i], Shown(b.w.time));
    DueAtLast(b.w.timers, b.w.time, e, i);
    ServiceCallsDue(Later(b.w, e), i);
    ServiceCallsDue(Later(Later(b.w, e), 1), i);
  }

  lemma ServiceCallsDue(w: Wheel, i: nat)
    requires i < |w.timers| && w.timers[i].callback.Some? && Due(w.timers[i], Shown(w.time))
    ensures CallsOf(Service(w).calls, i) == CallsOf(w.calls, i) + [w.time]
  {
    hide CallsOf, Firings, DueSlots, Due, Shown;
    ServiceCalls(w.timers, w.time, |w.timers|, i);
    CallsOfConcat(w.calls, Firings(DueSlots(w.timers, Shown(w.time), |w.timers|), w.time), i);
  }

  /** A timer that is due after a sleep within the budget has just become due. */
  lemma DueAtLast(ts: seq<Timer>, time: nat, e: nat, i: nat)
    requires i < |ts| && Due(ts[i], Shown(time + e))
    requires 1 <= e <= Remaining(ts[i], Shown(time))
    ensures Due(ts[i], Shown(time + e + 1))
  {
    var d := Remaining(ts[i], Shown(time));
    DeadlineShown(ts[i], time, d);
    DueExactly(ts[i], time + d, time + e);
    DueExactly(ts[i], time + d, time + e + 1);
  }

  // ---- Timers on the board ----

  /** SysTick, an iteration of the idle task, its return after a switch, or anything that tasks
      and other interrupts do to the kernel. */
  datatype Turn = SysTickTurn | IdleTurn(ms: nat) | ReturnTurn | OtherTurn(k: State)

  ghost predicate MayTurn(b: Board, u: Turn) {
    && Shaped(b.k)
    && (u.IdleTurn? ==> Idling(b.k) && MaySleep(b, u.ms))
  }

  ghost function Turned(b: Board, u: Turn): Board
    requires MayTurn(b, u)
  {
    match u
    case SysTickTurn => Tick(b)
    case IdleTurn(ms) => Iterated(b, ms)
    case ReturnTurn => ServiceBoard(b)
    case OtherTurn(k) => b.(k := k)
  }

  ghost predicate IsPlay(bs: seq<Board>, us: seq<Turn>) {
    && |bs| == |us| + 1
    && forall n :: 0 <= n < |us| ==> MayTurn(bs[n], us[n]) && bs[n + 1] == Turned(bs[n], us[n])
  }

  /** What a turn is to the timers. */
  ghost function EventOf(b: Board, u: Turn): seq<Event> {
    match u
    case SysTickTurn => [TickEvent]
    case IdleTurn(ms) => [if SomeExpires(b.k, ms) then SwitchEvent(ms) else SleepEvent(ms)]
    case ReturnTurn => [ResumeEvent]
    case OtherTurn(_) => []
  }

  ghost function EventsOf(bs: seq<Board>, us: seq<Turn>): seq<Event>
    requires |bs| == |us| + 1
  {
    if us == [] then []
    else EventsOf(bs[..|us|], us[..|us| - 1]) + EventOf(bs[|us| - 1], us[|us| - 1])
  }

  lemma OneMoreEvent(w: Wheel, vs: seq<Event>, v: Event)
    requires Paced(w, vs) && MayHappen(AfterAll(w, vs), v)
    ensures Paced(w, vs + [v]) && AfterAll(w, vs + [v]) == After(AfterAll(w, vs), v)
  {
    hide After, MayHappen;
    var all := vs + [v];
    assert all[..|vs|] == vs;
    forall n | 0 <= n < |all| ensures MayHappen(AfterAll(w, all[..n]), all[n]) {
      if n < |vs| {
        assert all[..n] == vs[..n];
      }
    }
  }

  lemma TurnIsEvent(b: Board, u: Turn)
    requires MayTurn(b, u)
    ensures var vs := EventOf(b, u);
      if vs == [] then Turned(b, u).w == b.w
      else |vs| == 1 && MayHappen(b.w, vs[0]) && Turned(b, u).w == After(b.w, vs[0])
  {
    hide TickN, MaySleep, SomeExpires, Idling, Service;
    if u.IdleTurn? {
      hide MayHappen;
      IterationIsEvent(b, u.ms);
    }
  }

  /** The timers of a board see the events of its turns, and sleeps are never too long. */
  lemma {:induction false} PlayIsPaced(bs: seq<Board>, us: seq<Turn>)
    requires IsPlay(bs, us)
    ensures Paced(bs[0].w, EventsOf(bs, us)) && AfterAll(bs[0].w, EventsOf(bs, us)) == bs[|us|].w
  {
    hide MayTurn, Turned, EventOf, MayHappen, After, AfterAll, Paced;
    if us == [] {
      NoEvents(bs[0].w, []);
      NothingPaced(bs[0].w);
    } else {
      var n := |us| - 1;
      PlayIsPaced(bs[..n + 1], us[..n]);
      TurnIsEvent(bs[n], us[n]);
      var vs, v := EventsOf(bs[..n + 1], us[..n]), EventOf(bs[n], us[n]);
      if v == [] {
        assert vs + v == vs;
      } else {
        assert v == [v[0]];
        OneMoreEvent(bs[0].w, vs, v[0]);
      }
    }
  }

  lemma NothingPaced(w: Wheel)
    ensures Paced(w, [])
  {
  }

  /** Over any play of the board an auto-reload timer started at T is called at its deadlines
      T + p, T + 2p, and so on, or a millisecond later: by a SysTick that comes after an iteration
      with which a delay ran out and before the idle task runs again. */
  lemma BoardReloadsOnTime(bs: seq<Board>, us: seq<Turn>, i: nat) returns (k: nat)
    requires IsPlay(bs, us) && i < |bs[0].w.timers|
    requires var t := bs[0].w.timers[i];
      && Timers.Runs(t) && t.autoReload && t.callback.Some? && Measurable(t.period, EventsOf(bs, us))
      && t.deadline == Add(Shown(bs[0].w.time), t.period)
    ensures var p, w, r := bs[0].w.timers[i].period, bs[0].w, bs[|us|].w;
      && CallsOf(r.calls, i) == CallsOf(w.calls, i) + CallTimes(w, EventsOf(bs, us), i, p, k)
      && w.time + k * p <= r.time <= DueTime(w.time, p, k)
  {
    hide EventsOf, CallsOf, CallTimes, AfterAll;
    PlayIsPaced(bs, us);
    k := ReloadsOnTime(bs[0].w, EventsOf(bs, us), i);
  }
}
