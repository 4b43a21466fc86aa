/** A tickless sleep that an interrupt disturbs. While `s_tickless_active` is set SysTick does
    nothing, also when an interrupt has woken a task and the idle task is not running. */
module Dozing {
  import opened Kernel
  import opened System
  import opened Integrity
  import opened Runs
  import opened Timing
  import opened TimerRuns
  import opened Timers
  import opened Tickless
  import opened Arithmetic

  /** The machine, the timers with the kernel's clock, `s_tickless_active`, and wall-clock time. */
  datatype Doze = Doze(s: Sys, w: Wheel, active: bool, wall: nat)

  /** A millisecond passes; the SysTick exception is taken; a task or another interrupt acts. */
  datatype Happening = Millisecond | SysTickIrq | Does(a: Action)

  ghost predicate MayDo(d: Doze, h: Happening) {
    Shape(d.s) && (h.Does? ==> !TakesTime(h.a) && Enabled(d.s, h.a))
  }

  ghost function Done(d: Doze, h: Happening): Doze
    requires MayDo(d, h)
  {
    match h
    case Millisecond => d.(wall := d.wall + 1)
    case SysTickIrq => if d.active then d else d.(s := Apply(d.s, Action.Tick), w := After(d.w, TickEvent))
    case Does(a) => d.(s := Apply(d.s, a))
  }

  ghost predicate IsDoze(ds: seq<Doze>, hs: seq<Happening>) {
    && |ds| == |hs| + 1
    && forall i :: 0 <= i < |hs| ==> MayDo(ds[i], hs[i]) && ds[i + 1] == Done(ds[i], hs[i])
  }

  function Milliseconds(hs: seq<Happening>): nat {
    if hs == [] then 0
    else Milliseconds(hs[..|hs| - 1]) + if hs[|hs| - 1].Millisecond? then 1 else 0
  }

  /** From the beginning of the sleep until the idle task runs again: clock, timers and callbacks
      stand still, however many SysTicks arrive. */
  lemma {:induction false} ClockStandsStill(ds: seq<Doze>, hs: seq<Happening>, n: nat)
    requires IsDoze(ds, hs) && ds[0].active && SysInv(ds[0].s) && n < |ds|
    ensures ds[n].active && ds[n].w == ds[0].w && SysInv(ds[n].s) && ds[n].s.now == ds[0].s.now
    ensures ds[n].wall == ds[0].wall + Milliseconds(hs[..n]) && NoNewFlag(ds[0].s.k, ds[n].s.k)
  {
    hide Apply, SysInv, Enabled;
    if n > 0 {
      ClockStandsStill(ds, hs, n - 1);
      assert hs[..n][..n - 1] == hs[..n - 1];
      var d, h := ds[n - 1], hs[n - 1];
      if h.Does? {
        StepCore(d.s, h.a);
        NowStep(d.s, h.a);
        OnlyTimeFlags(d.s, h.a);
      }
    }
  }

  /** So nobody's time comes: a delayed task stays BLOCKED and no call times out. */
  lemma NobodysTimeComes(ds: seq<Doze>, hs: seq<Happening>, n: nat, t: nat)
    requires IsDoze(ds, hs) && ds[0].active && SysInv(ds[0].s) && n < |ds| && t < |ds[n].s.pcs|
    ensures |ds[n].s.pcs| == |ds[n].s.k.tasks| == |ds[0].s.k.tasks|
    ensures var p, x := ds[n].s.pcs[t], ds[n].s.k.tasks[t];
      && (p.Delaying? && p.until > ds[0].s.now ==> x.state.Blocked? && x.delay == p.until - ds[0].s.now)
      && (x.timedOut ==> ds[0].s.k.tasks[t].timedOut)
  {
    ClockStandsStill(ds, hs, n);
    assert PcOk(ds[n].s, t);
  }

  // ---- When the sleep is counted ----

  /** The rest of `systick_tickless_sleep(maxMs)`, with what the counter shows. */
  ghost function Counted(d: Doze, maxMs: Word, perMs: Word, c: Counter): Doze
    requires perMs > 0 && c.value < ReloadFor(maxMs, perMs)
  {
    var e := ElapsedMs(maxMs, perMs, c);
    d.(s := d.s.(now := d.s.now + e), w := Later(d.w, e), active := false)
  }

  /** What follows on `wfi`: PendSV first, if an interrupt has chosen another task. */
  ghost function WfiReturns(d: Doze, maxMs: Word, perMs: Word, c: Counter): Doze
    requires perMs > 0 && c.value < ReloadFor(maxMs, perMs)
  {
    if d.s.k.next == d.s.k.current then Counted(d, maxMs, perMs, c) else d.(s := d.s.(k := Deliver(d.s.k)))
  }

  /** The whole milliseconds that the counter can hold. */
  function Budget(maxMs: Word, perMs: Word): nat
    requires perMs > 0
  {
    ReloadFor(maxMs, perMs) / perMs
  }

  /** `x` whole milliseconds have passed, as the counter shows. */
  ghost predicate ShowsMs(maxMs: Word, perMs: Word, c: Counter, x: nat)
    requires perMs > 0
  {
    exists t: nat :: Shows(ReloadFor(maxMs, perMs), c, t) && WholeMs(t, perMs) == x
  }

  /** What is counted of them: the budget at most, and 1 for none. */
  lemma CountedMs(maxMs: Word, perMs: Word, c: Counter, x: nat)
    requires perMs > 0 && ShowsMs(maxMs, perMs, c, x) && (x > 0 ==> Budget(maxMs, perMs) > 0)
    ensures c.value < ReloadFor(maxMs, perMs)
    ensures ElapsedMs(maxMs, perMs, c) == if x == 0 then 1 else Min(x, Budget(maxMs, perMs))
  {
    hide Clip, ElapsedMs, WholeMs;
    var r := ReloadFor(maxMs, perMs);
    var t: nat :| Shows(r, c, t) && WholeMs(t, perMs) == x;
    CountsWhatPassed(maxMs, perMs, c, t);
    NoWholeMs(t, perMs);
    NoWholeMs(r, perMs);
    if t >= r {
      MoreMs(t, r, perMs);
    } else {
      MoreMs(r, t, perMs);
    }
  }

  lemma MoreMs(a: nat, b: nat, perMs: nat)
    requires perMs > 0 && b <= a
    ensures b / perMs <= a / perMs
  {
    var p, q := a / perMs, b / perMs;
    assert a == p * perMs + a % perMs && b == q * perMs + b % perMs;
    MonotoneProduct(p + 1, q, perMs);
  }

  /** The idle task is the current one. */
  predicate AtIdle(d: Doze) {
    d.s.k.current == Idle(d.s.k)
  }

  /** The kernel's clock is right. */
  predicate OnTime(d: Doze) {
    d.w.time == d.wall
  }

  /** `wfi` returns after `x` milliseconds, within the budget: if x > 0, the clock is right just
      when the idle task is still the chosen one. Otherwise it lags by the whole sleep so far,
      until the idle task runs again. */
  lemma TimeRightIffIdle(ds: seq<Doze>, hs: seq<Happening>, n: nat, maxMs: Word, perMs: Word, c: Counter)
    requires IsDoze(ds, hs) && ds[0].active && SysInv(ds[0].s) && OnTime(ds[0]) && n < |ds|
    requires perMs > 0 && ShowsMs(maxMs, perMs, c, Milliseconds(hs[..n]))
    requires AtIdle(ds[0]) && AtIdle(ds[n]) && Milliseconds(hs[..n]) <= Budget(maxMs, perMs)
    ensures c.value < ReloadFor(maxMs, perMs)
    ensures var d, x := ds[n], Milliseconds(hs[..n]);
      && d.w.time + x == d.wall
      && (OnTime(WfiReturns(d, maxMs, perMs, c)) <==> if d.s.k.next == Idle(d.s.k) then x > 0 else x == 0)
  {
    hide ReloadFor, ElapsedMs, ShowsMs, Budget;
    ClockStandsStill(ds, hs, n);
    CountedMs(maxMs, perMs, c, Milliseconds(hs[..n]));
  }

  /** When the idle task comes back, the clock is right again just when at least a millisecond
      has passed and the budget is not exceeded; what exceeds it is lost. */
  lemma ReturnRightIff(ds: seq<Doze>, hs: seq<Happening>, n: nat, maxMs: Word, perMs: Word, c: Counter)
    requires IsDoze(ds, hs) && ds[0].active && SysInv(ds[0].s) && OnTime(ds[0]) && n < |ds|
    requires perMs > 0 && ShowsMs(maxMs, perMs, c, Milliseconds(hs[..n])) && Budget(maxMs, perMs) > 0
    requires AtIdle(ds[0]) && AtIdle(ds[n]) && ds[n].s.k.next == Idle(ds[n].s.k)
    ensures c.value < ReloadFor(maxMs, perMs)
    ensures var x, r, budget := Milliseconds(hs[..n]), Counted(ds[n], maxMs, perMs, c), Budget(maxMs, perMs);
      && (OnTime(r) <==> 1 <= x <= budget)
      && (x > budget ==> r.wall - r.w.time == x - budget)
  {
    hide ReloadFor, ElapsedMs, ShowsMs, Budget;
    ClockStandsStill(ds, hs, n);
    CountedMs(maxMs, perMs, c, Milliseconds(hs[..n]));
  }
}
