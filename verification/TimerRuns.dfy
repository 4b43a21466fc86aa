/** When timers fire, over a clock that wraps and in every mix of SysTicks, tickless sleeps, and
    sleeps that end with a switch away from the idle task before it services the timers. */
module TimerRuns {
  import opened Timers

  /** A callback called when the clock had run for `time` milliseconds. */
  datatype Firing = Firing(time: nat, slot: nat)

  /** The pool, the true time, and the calls made so far. */
  datatype Wheel = Wheel(time: nat, timers: seq<Timer>, calls: seq<Firing>)

  function Firings(slots: seq<nat>, time: nat): seq<Firing> {
    if slots == [] then [] else Firings(slots[..|slots| - 1], time) + [Firing(time, slots[|slots| - 1])]
  }

  /** `timer_service_tick` at the present time. */
  ghost function Service(w: Wheel): Wheel {
    w.(timers := ServiceAll(w.timers, Shown(w.time)),
       calls := w.calls + Firings(DueSlots(w.timers, Shown(w.time), |w.timers|), w.time))
  }

  ghost function Later(w: Wheel, ms: nat): Wheel {
    w.(time := w.time + ms)
  }

  /** A SysTick interrupt; a sleep of the idle task that ends with its service of the timers; a
      sleep at whose end a task delay runs out, so that PendSV takes the processor away from
      the idle task before the service; and the service when the idle task runs again. */
  datatype Event = TickEvent | SleepEvent(ms: nat) | SwitchEvent(ms: nat) | ResumeEvent

  ghost function After(w: Wheel, v: Event): Wheel {
    match v
    case TickEvent => Service(Later(w, 1))
    case SleepEvent(ms) => Service(Later(w, ms))
    case SwitchEvent(ms) => Later(w, ms)
    case ResumeEvent => Service(w)
  }

  ghost function AfterAll(w: Wheel, vs: seq<Event>): (r: Wheel)
    ensures |r.timers| == |w.timers|
  {
    if vs == [] then w else After(AfterAll(w, vs[..|vs| - 1]), vs[|vs| - 1])
  }

  /** A sleep is no longer than the soonest timer allows. */
  ghost predicate MayHappen(w: Wheel, v: Event) {
    v.SleepEvent? || v.SwitchEvent? ==>
      && 1 <= v.ms
      && forall i :: 0 <= i < |w.timers| && Runs(w.timers[i]) ==> v.ms <= Remaining(w.timers[i], Shown(w.time))
  }

  ghost predicate Paced(w: Wheel, vs: seq<Event>) {
    forall n :: 0 <= n < |vs| ==> MayHappen(AfterAll(w, vs[..n]), vs[n])
  }

  lemma PacedPrefix(w: Wheel, vs: seq<Event>, m: nat)
    requires Paced(w, vs) && m <= |vs|
    ensures Paced(w, vs[..m])
  {
    forall n | 0 <= n < m ensures MayHappen(AfterAll(w, vs[..m][..n]), vs[..m][n]) {
      assert vs[..m][..n] == vs[..n];
    }
  }

  /** The times at which slot `i` was called. */
  function CallsOf(calls: seq<Firing>, i: nat): seq<nat> {
    if calls == [] then []
    else
      var last := calls[|calls| - 1];
      CallsOf(calls[..|calls| - 1], i) + if last.slot == i then [last.time] else []
  }

  lemma {:induction false} CallsOfConcat(a: seq<Firing>, b: seq<Firing>, i: nat)
    ensures CallsOf(a + b, i) == CallsOf(a, i) + CallsOf(b, i)
  {
    if b == [] {
      assert a + b == a;
    } else {
      assert (a + b)[..|a + b| - 1] == a + b[..|b| - 1];
      CallsOfConcat(a, b[..|b| - 1], i);
    }
  }

  lemma OneMoreCall(slots: seq<nat>, x: nat, time: nat, i: nat)
    ensures CallsOf(Firings(slots + [x], time), i)
         == CallsOf(Firings(slots, time), i) + if x == i then [time] else []
  {
    assert (slots + [x])[..|slots|] == slots;
    var f := Firings(slots, time);
    assert Firings(slots + [x], time) == f + [Firing(time, x)];
    assert (f + [Firing(time, x)])[..|f|] == f;
  }

  /** One service calls slot `i` once if it is due, and not otherwise. */
  lemma {:induction false} ServiceCalls(ts: seq<Timer>, time: nat, n: nat, i: nat)
    requires n <= |ts| && i < |ts| && ts[i].callback.Some?
    ensures CallsOf(Firings(DueSlots(ts, Shown(time), n), time), i)
         == if i < n && Due(ts[i], Shown(time)) then [time] else []
  {
    hide Shown, Due, CallsOf, Firings;
    if n == 0 {
      NoCalls(time, i);
    } else {
      ServiceCalls(ts, time, n - 1, i);
      OneMoreCall(DueSlots(ts, Shown(time), n - 1), n - 1, time, i);
    }
  }

  lemma NoCalls(time: nat, i: nat)
    ensures CallsOf(Firings([], time), i) == []
  {
  }

  /** A deadline `d` milliseconds ahead, seen through the wrapping clock. */
  lemma Ahead(time: nat, d: nat)
    requires d < TWO32
    ensures Sub(Shown(time + d), Shown(time)) == d
    ensures Sub(Shown(time), Shown(time + d)) == if d == 0 then 0 else TWO32 - d
  {
    var a, b := time / TWO32, (time + d) / TWO32;
    assert time == a * TWO32 + Shown(time);
    assert time + d == b * TWO32 + Shown(time + d);
    assert b == a || b == a + 1;
  }

  lemma AddShown(time: nat, p: Word)
    ensures Add(Shown(time), p) == Shown(time + p)
  {
    var a, c := time / TWO32, (time + p) / TWO32;
    assert time == a * TWO32 + Shown(time);
    assert time + p == c * TWO32 + Shown(time + p);
  }

  /** A timer whose true deadline is `due`. */
  predicate DueAt(t: Timer, due: nat) {
    Runs(t) && t.deadline == Shown(due)
  }

  /** Near its deadline a timer is due exactly when the true time has reached it. */
  lemma DueExactly(t: Timer, due: nat, time: nat)
    requires DueAt(t, due) && due <= time + TWO31 && time < due + TWO31
    ensures Due(t, Shown(time)) <==> due <= time
  {
    if due <= time {
      Ahead(due, time - due);
    } else {
      Ahead(time, due - time);
    }
  }

  /** The remaining time of a timer is the true one below 2^31 ms, and 0 once it is due. */
  lemma RemainingExactly(t: Timer, due: nat, time: nat)
    requires DueAt(t, due) && due <= time + TWO31 + 1 && time <= due + TWO31
    ensures time <= due ==> Remaining(t, Shown(time)) <= due - time
    ensures time <= due < time + TWO31 ==> Remaining(t, Shown(time)) == due - time
    ensures due <= time ==> Remaining(t, Shown(time)) == 0
  {
    if due <= time {
      Ahead(due, time - due);
    } else {
      Ahead(time, due - time);
    }
  }

  /** One event in the life of a timer with true deadline `due`: nothing passes the deadline
      but a SysTick that finds the timer due already, and the first service at or after the
      deadline calls it, once. */
  lemma EventExact(w: Wheel, v: Event, i: nat, due: nat)
    requires i < |w.timers| && w.timers[i].callback.Some? && DueAt(w.timers[i], due)
    requires w.time <= due <= w.time + TWO31 + 1 && (v.ResumeEvent? ==> due <= w.time + TWO31) && MayHappen(w, v)
    ensures var r, t := After(w, v), w.timers[i];
      && |r.timers| == |w.timers| && w.time <= r.time && (v.SleepEvent? || v.SwitchEvent? ==> w.time < r.time)
      && (v.TickEvent? ==> r.time == w.time + 1) && (v.ResumeEvent? ==> r.time == w.time)
      && (r.time <= due || (w.time == due && v.TickEvent?))
      && (if !v.SwitchEvent? && due <= r.time then
            && r.timers[i] == (if t.autoReload then t.(deadline := Shown(due + t.period)) else t.(active := false))
            && CallsOf(r.calls, i) == CallsOf(w.calls, i) + [r.time]
          else r.timers[i] == t && CallsOf(r.calls, i) == CallsOf(w.calls, i))
  {
    hide Due, Remaining, Firings, DueSlots, CallsOf, Shown;
    var t, time := w.timers[i], After(w, v).time;
    RemainingExactly(t, due, w.time);
    if !v.SwitchEvent? {
      DueExactly(t, due, time);
      ServiceCalls(w.timers, time, |w.timers|, i);
      CallsOfConcat(w.calls, Firings(DueSlots(w.timers, Shown(time), |w.timers|), time), i);
      AddShown(due, t.period);
      assert AllServiced(w.timers, ServiceAll(w.timers, Shown(time)), Shown(time));
    }
  }

  // ---- Auto-reload timers ----

  /** Some SysTick is the first to service the timer after its deadline `due`. */
  ghost predicate LateAt(w: Wheel, vs: seq<Event>, i: nat, due: nat)
    requires i < |w.timers|
  {
    exists n :: 0 <= n < |vs| && LateTick(w, vs, i, n, due)
  }

  ghost predicate LateTick(w: Wheel, vs: seq<Event>, i: nat, n: nat, due: nat)
    requires i < |w.timers| && n < |vs|
  {
    var b := AfterAll(w, vs[..n]);
    vs[n].TickEvent? && b.time == due && DueAt(b.timers[i], due)
  }

  lemma LateAtLast(w: Wheel, vs: seq<Event>, i: nat, due: nat)
    requires i < |w.timers| && vs != []
    ensures var n := |vs| - 1; LateAt(w, vs, i, due) <==> LateAt(w, vs[..n], i, due) || LateTick(w, vs, i, n, due)
  {
    var n := |vs| - 1;
    forall m | 0 <= m < n ensures LateTick(w, vs[..n], i, m, due) <==> LateTick(w, vs, i, m, due) {
      assert vs[..n][..m] == vs[..m];
    }
    if LateAt(w, vs, i, due) && !LateTick(w, vs, i, n, due) {
      var m :| 0 <= m < |vs| && LateTick(w, vs, i, m, due);
      assert LateTick(w, vs[..n], i, m, due);
    }
    if LateAt(w, vs[..n], i, due) {
      var m :| 0 <= m < n && LateTick(w, vs[..n], i, m, due);
      assert LateTick(w, vs, i, m, due);
    }
  }

  /** By how much the call with deadline `due` comes too late. */
  ghost function Lag(w: Wheel, vs: seq<Event>, i: nat, due: nat): nat
    requires i < |w.timers|
  {
    if LateAt(w, vs, i, due) then 1 else 0
  }

  /** The deadline of call `j`, counted from 0. */
  function DueTime(start: nat, p: nat, j: nat): nat {
    start + (j + 1) * p
  }

  /** When the first `k` calls come: at their deadlines, or a millisecond later. */
  ghost function CallTimes(w: Wheel, vs: seq<Event>, i: nat, p: nat, k: nat): (r: seq<nat>)
    requires i < |w.timers|
    ensures |r| == k
  {
    seq(k, j requires 0 <= j < k =>
      DueTime(w.time, p, j) + Lag(w, vs, i, DueTime(w.time, p, j)))
  }

  /** An auto-reload timer that started with wheel `w` and has been called `k` times. */
  ghost predicate Reloading(w: Wheel, vs: seq<Event>, i: nat, p: nat, k: nat) {
    var r, due := AfterAll(w, vs), DueTime(w.time, p, k);
    && i < |w.timers|
    && r.timers[i].autoReload && r.timers[i].period == p && r.timers[i].callback.Some?
    && DueAt(r.timers[i], due) && due - p <= r.time <= due
    && CallsOf(r.calls, i) == CallsOf(w.calls, i) + CallTimes(w, vs, i, p, k)
    && forall d: nat :: d >= due ==> !LateAt(w, vs, i, d)
  }

  /** Periods for which the signed comparison is right: where the idle task may service a timer at
      the very time of its start, the deadline has to lie at most 2^31 ahead. */
  ghost predicate Measurable(p: nat, vs: seq<Event>) {
    1 <= p <= TWO31 + 1 && (p == TWO31 + 1 ==> forall n :: 0 <= n < |vs| ==> !vs[n].ResumeEvent?)
  }

  lemma NextDue(start: nat, p: nat, k: nat)
    ensures DueTime(start, p, k + 1) == DueTime(start, p, k) + p
    ensures DueTime(start, p, k) == start + k * p + p
  {
  }

  lemma {:induction false} DueTimesGrow(start: nat, p: nat, j: nat, k: nat)
    requires p > 0 && j < k
    ensures DueTime(start, p, j) + p <= DueTime(start, p, k)
  {
    NextDue(start, p, k - 1);
    if j < k - 1 {
      DueTimesGrow(start, p, j, k - 1);
    }
  }

  lemma ReloadStep(w: Wheel, vs: seq<Event>, i: nat, p: nat, k: nat) returns (n: nat)
    requires vs != [] && Measurable(p, vs) && Reloading(w, vs[..|vs| - 1], i, p, k)
    requires MayHappen(AfterAll(w, vs[..|vs| - 1]), vs[|vs| - 1])
    ensures Reloading(w, vs, i, p, n)
  {
    hide After, MayHappen, CallsOf, Shown, DueTime, LateAt;
    var before, v, due := vs[..|vs| - 1], vs[|vs| - 1], DueTime(w.time, p, k);
    var b, r := AfterAll(w, before), AfterAll(w, vs);
    EventExact(b, v, i, due);
    NextDue(w.time, p, k);
    Ahead(b.time, due - b.time);
    forall d: nat ensures LateAt(w, vs, i, d) <==> LateAt(w, before, i, d) || (v.TickEvent? && b.time == d == due) {
      LateAtLast(w, vs, i, d);
    }
    forall j | 0 <= j < k ensures DueTime(w.time, p, j) < due {
      DueTimesGrow(w.time, p, j, k);
    }
    if !v.SwitchEvent? && due <= r.time {
      n := k + 1;
      assert CallTimes(w, vs, i, p, n) == CallTimes(w, before, i, p, k) + [r.time];
    } else {
      n := k;
      assert CallTimes(w, vs, i, p, n) == CallTimes(w, before, i, p, k);
    }
  }

  lemma ReloadingStarts(w: Wheel, i: nat)
    requires i < |w.timers| && Runs(w.timers[i]) && w.timers[i].autoReload && w.timers[i].callback.Some?
    requires w.timers[i].deadline == Add(Shown(w.time), w.timers[i].period)
    ensures Reloading(w, [], i, w.timers[i].period, 0)
  {
    AddShown(w.time, w.timers[i].period);
    NextDue(w.time, w.timers[i].period, 0);
  }

  lemma {:induction false} ReloadRun(w: Wheel, vs: seq<Event>, i: nat) returns (k: nat)
    requires i < |w.timers| && Runs(w.timers[i]) && w.timers[i].autoReload && w.timers[i].callback.Some?
    requires w.timers[i].deadline == Add(Shown(w.time), w.timers[i].period)
    requires Measurable(w.timers[i].period, vs) && Paced(w, vs)
    ensures Reloading(w, vs, i, w.timers[i].period, k)
  {
    hide Reloading;
    if vs == [] {
      k := 0;
      ReloadingStarts(w, i);
    } else {
      var n := |vs| - 1;
      PacedPrefix(w, vs, n);
      k := ReloadRun(w, vs[..n], i);
      k := ReloadStep(w, vs, i, w.timers[i].period, k);
    }
  }

  /** An auto-reload timer of period `p` started at T. Call `j` comes at T + (j + 1)p, or a
      millisecond later if a SysTick is the first to service it after the deadline; the delay
      of one call does not move the next, and no call is lost: the one that is pending at most
      has reached its deadline in this very millisecond. */
  lemma ReloadsOnTime(w: Wheel, vs: seq<Event>, i: nat) returns (k: nat)
    requires i < |w.timers| && Runs(w.timers[i]) && w.timers[i].autoReload && w.timers[i].callback.Some?
    requires w.timers[i].deadline == Add(Shown(w.time), w.timers[i].period)
    requires Measurable(w.timers[i].period, vs) && Paced(w, vs)
    ensures var p, r := w.timers[i].period, AfterAll(w, vs);
      && CallsOf(r.calls, i) == CallsOf(w.calls, i) + CallTimes(w, vs, i, p, k)
      && w.time + k * p <= r.time <= DueTime(w.time, p, k)
      && DueAt(r.timers[i], DueTime(w.time, p, k))
  {
    k := ReloadRun(w, vs, i);
    NextDue(w.time, w.timers[i].period, k);
  }

  /** The sleep that reached `due` was cut short of its service, and the next SysTick came
      before the idle task ran again. */
  ghost predicate KeptAway(w: Wheel, vs: seq<Event>, due: nat) {
    exists n :: 0 <= n < |vs| - 1 && vs[n].SwitchEvent? && AfterAll(w, vs[..n + 1]).time == due && vs[n + 1].TickEvent?
  }

  /** Event `n`, with what is known of the timer before it. */
  lemma EventAt(w: Wheel, vs: seq<Event>, i: nat, n: nat) returns (k: nat)
    requires i < |w.timers| && Runs(w.timers[i]) && w.timers[i].autoReload && w.timers[i].callback.Some?
    requires w.timers[i].deadline == Add(Shown(w.time), w.timers[i].period)
    requires Measurable(w.timers[i].period, vs) && Paced(w, vs) && n < |vs|
    ensures var b, v, r, p := AfterAll(w, vs[..n]), vs[n], AfterAll(w, vs[..n + 1]), w.timers[i].period;
      var due := DueTime(w.time, p, k);
      && DueAt(b.timers[i], due) && due - p <= b.time <= due && b.time <= r.time && (v.SwitchEvent? ==> b.time < r.time)
      && (v.TickEvent? ==> r.time == b.time + 1) && (v.ResumeEvent? ==> r.time == b.time)
      && (r.time <= due || (b.time == due && v.TickEvent?))
      && DueAt(r.timers[i], if !v.SwitchEvent? && due <= r.time then due + p else due)
  {
    hide After, MayHappen, CallsOf, DueTime, CallTimes, Shown;
    PacedPrefix(w, vs, n);
    k := ReloadRun(w, vs[..n], i);
    assert vs[..n + 1][..n] == vs[..n] && MayHappen(AfterAll(w, vs[..n]), vs[n]);
    EventExact(AfterAll(w, vs[..n]), vs[n], i, DueTime(w.time, w.timers[i].period, k));
  }

  lemma LateWasKept(w: Wheel, vs: seq<Event>, i: nat, j: nat, n: nat)
    requires i < |w.timers| && Runs(w.timers[i]) && w.timers[i].autoReload && w.timers[i].callback.Some?
    requires w.timers[i].deadline == Add(Shown(w.time), w.timers[i].period)
    requires Measurable(w.timers[i].period, vs) && Paced(w, vs) && w.timers[i].period >= 2
    requires n < |vs| && LateTick(w, vs, i, n, DueTime(w.time, w.timers[i].period, j))
    ensures KeptAway(w, vs, DueTime(w.time, w.timers[i].period, j))
  {
    hide After, AfterAll, Paced, Shown, DueTime;
    var p := w.timers[i].period;
    NextDue(w.time, p, j);
    if n == 0 {
      NoEvents(w, vs);
    } else {
      var k := EventAt(w, vs, i, n - 1);
      var r, due := AfterAll(w, vs[..n]), DueTime(w.time, p, k);
      if vs[n - 1].SwitchEvent? {
        assert vs[(n - 1) + 1].TickEvent?;
      } else if due <= r.time {
        Ahead(r.time, due + p - r.time);
      } else {
        Ahead(r.time, due - r.time);
      }
    }
  }

  lemma NoEvents(w: Wheel, vs: seq<Event>)
    ensures AfterAll(w, vs[..0]) == w
  {
  }

  lemma KeptIsLate(w: Wheel, vs: seq<Event>, i: nat, j: nat, n: nat)
    requires i < |w.timers| && Runs(w.timers[i]) && w.timers[i].autoReload && w.timers[i].callback.Some?
    requires w.timers[i].deadline == Add(Shown(w.time), w.timers[i].period)
    requires Measurable(w.timers[i].period, vs) && Paced(w, vs)
    requires n < |vs| - 1 && vs[n].SwitchEvent? && vs[n + 1].TickEvent?
    requires AfterAll(w, vs[..n + 1]).time == DueTime(w.time, w.timers[i].period, j)
    ensures LateAt(w, vs, i, DueTime(w.time, w.timers[i].period, j))
  {
    hide After, AfterAll, Paced, DueTime;
    var k := EventAt(w, vs, i, n);
    var p := w.timers[i].period;
    if j < k {
      DueTimesGrow(w.time, p, j, k);
    } else if k < j {
      DueTimesGrow(w.time, p, k, j);
    }
    assert LateTick(w, vs, i, n + 1, DueTime(w.time, p, j));
  }

  /** A call is late just when a task delay ran out together with its deadline and kept the
      processor until the next SysTick. */
  lemma LateIff(w: Wheel, vs: seq<Event>, i: nat, j: nat)
    requires i < |w.timers| && Runs(w.timers[i]) && w.timers[i].autoReload && w.timers[i].callback.Some?
    requires w.timers[i].deadline == Add(Shown(w.time), w.timers[i].period)
    requires Measurable(w.timers[i].period, vs) && Paced(w, vs) && w.timers[i].period >= 2
    ensures var due := DueTime(w.time, w.timers[i].period, j); LateAt(w, vs, i, due) <==> KeptAway(w, vs, due)
  {
    hide Reloading, LateTick;
    var due := DueTime(w.time, w.timers[i].period, j);
    if LateAt(w, vs, i, due) {
      var n :| 0 <= n < |vs| && LateTick(w, vs, i, n, due);
      LateWasKept(w, vs, i, j, n);
    }
    if KeptAway(w, vs, due) {
      var n :| 0 <= n < |vs| - 1 && vs[n].SwitchEvent? && AfterAll(w, vs[..n + 1]).time == due && vs[n + 1].TickEvent?;
      KeptIsLate(w, vs, i, j, n);
    }
  }

  /** A timer of period 1 that is behind stays behind until a service other than a SysTick's. */
  ghost predicate KeptAwaySince(vs: seq<Event>, n: nat)
    requires n <= |vs|
  {
    exists m :: 0 <= m < n && vs[m].SwitchEvent? && OnlyTicks(vs, m + 1, n)
  }

  ghost predicate OnlyTicks(vs: seq<Event>, m: nat, n: nat)
    requires n <= |vs|
  {
    forall q :: m <= q < n ==> vs[q].TickEvent?
  }

  lemma {:induction false} BehindIff(w: Wheel, vs: seq<Event>, i: nat, n: nat)
    requires i < |w.timers| && Runs(w.timers[i]) && w.timers[i].autoReload && w.timers[i].callback.Some?
    requires w.timers[i].deadline == Add(Shown(w.time), w.timers[i].period)
    requires w.timers[i].period == 1 && Paced(w, vs) && n <= |vs|
    ensures var r := AfterAll(w, vs[..n]); DueAt(r.timers[i], r.time) <==> KeptAwaySince(vs, n)
  {
    hide After, AfterAll, Paced, Shown, DueTime;
    if n == 0 {
      NoEvents(w, vs);
      AddShown(w.time, 1);
      Ahead(w.time, 1);
    } else {
      BehindIff(w, vs, i, n - 1);
      var k := EventAt(w, vs, i, n - 1);
      var b, r, due := AfterAll(w, vs[..n - 1]), AfterAll(w, vs[..n]), DueTime(w.time, 1, k);
      assert vs[..(n - 1) + 1] == vs[..n];
      Ahead(r.time, if r.time <= due then due - r.time else 0);
      Ahead(b.time, due - b.time);
      Ahead(r.time, due + 1 - r.time);
      if vs[n - 1].SwitchEvent? {
        assert OnlyTicks(vs, (n - 1) + 1, n);
      } else if vs[n - 1].TickEvent? {
        TicksGoOn(vs, n);
      }
    }
  }

  lemma TicksGoOn(vs: seq<Event>, n: nat)
    requires 0 < n <= |vs| && vs[n - 1].TickEvent?
    ensures KeptAwaySince(vs, n) <==> KeptAwaySince(vs, n - 1)
  {
    if KeptAwaySince(vs, n - 1) {
      var m :| 0 <= m < n - 1 && vs[m].SwitchEvent? && OnlyTicks(vs, m + 1, n - 1);
      assert OnlyTicks(vs, m + 1, n);
    }
  }

  /** With a period of 1 a call is late just when ticks alone have followed on a switch. */
  lemma LateIffOfOne(w: Wheel, vs: seq<Event>, i: nat, j: nat)
    requires i < |w.timers| && Runs(w.timers[i]) && w.timers[i].autoReload && w.timers[i].callback.Some?
    requires w.timers[i].deadline == Add(Shown(w.time), w.timers[i].period)
    requires w.timers[i].period == 1 && Paced(w, vs)
    ensures LateAt(w, vs, i, w.time + j + 1) <==>
      exists n :: 0 <= n < |vs| && vs[n].TickEvent? && KeptAwaySince(vs, n)
        && AfterAll(w, vs[..n]).time == w.time + j + 1
  {
    hide After, AfterAll, Paced, Shown, KeptAwaySince;
    forall n | 0 <= n < |vs|
      ensures LateTick(w, vs, i, n, w.time + j + 1) <==>
        vs[n].TickEvent? && KeptAwaySince(vs, n) && AfterAll(w, vs[..n]).time == w.time + j + 1
    {
      BehindIff(w, vs, i, n);
    }
    if LateAt(w, vs, i, w.time + j + 1) {
      var n :| 0 <= n < |vs| && LateTick(w, vs, i, n, w.time + j + 1);
      assert vs[n].TickEvent? && KeptAwaySince(vs, n);
    }
  }

  // ---- When every call is on time ----

  /** The multiples of `p` after `start`, `k` of them. */
  ghost function Multiples(start: nat, p: nat, k: nat): seq<nat> {
    seq(k, j requires 0 <= j < k => DueTime(start, p, j))
  }

  /** A task that takes the processor from a sleeping idle task gives it back before the next
      SysTick. */
  ghost predicate GivesBack(vs: seq<Event>) {
    forall n :: 0 <= n < |vs| - 1 && vs[n].SwitchEvent? ==> !vs[n + 1].TickEvent?
  }

  lemma NeverLate(w: Wheel, vs: seq<Event>, i: nat, j: nat)
    requires i < |w.timers| && Runs(w.timers[i]) && w.timers[i].autoReload && w.timers[i].callback.Some?
    requires w.timers[i].deadline == Add(Shown(w.time), w.timers[i].period)
    requires Measurable(w.timers[i].period, vs) && Paced(w, vs) && GivesBack(vs)
    ensures !LateAt(w, vs, i, DueTime(w.time, w.timers[i].period, j))
  {
    hide After, AfterAll, Paced, LateAt, Shown;
    if w.timers[i].period >= 2 {
      LateIff(w, vs, i, j);
    } else {
      LateIffOfOne(w, vs, i, j);
      forall n | 0 <= n < |vs| && vs[n].TickEvent? ensures !KeptAwaySince(vs, n) {
        NotKeptAway(vs, n);
      }
    }
  }

  lemma NotKeptAway(vs: seq<Event>, n: nat)
    requires n < |vs| && vs[n].TickEvent? && GivesBack(vs)
    ensures !KeptAwaySince(vs, n)
  {
    forall m | 0 <= m < n && vs[m].SwitchEvent? ensures !OnlyTicks(vs, m + 1, n) {
      assert !vs[m + 1].TickEvent?;
    }
  }

  /** Then an auto-reload timer of period `p` started at T is called exactly at T + p, T + 2p, and
      so on, in any mix of ticks and sleeps, however often the clock wraps, and whatever the
      other timers do. */
  lemma ReloadsExactly(w: Wheel, vs: seq<Event>, i: nat) returns (k: nat)
    requires i < |w.timers| && Runs(w.timers[i]) && w.timers[i].autoReload && w.timers[i].callback.Some?
    requires w.timers[i].deadline == Add(Shown(w.time), w.timers[i].period)
    requires Measurable(w.timers[i].period, vs) && Paced(w, vs) && GivesBack(vs)
    ensures var p, r := w.timers[i].period, AfterAll(w, vs);
      && CallsOf(r.calls, i) == CallsOf(w.calls, i) + Multiples(w.time, p, k)
      && w.time + k * p <= r.time <= DueTime(w.time, p, k)
  {
    hide After, AfterAll, Paced, LateAt, Shown, GivesBack, Measurable, DueTime;
    var p := w.timers[i].period;
    k := ReloadsOnTime(w, vs, i);
    forall j | 0 <= j < k ensures CallTimes(w, vs, i, p, k)[j] == DueTime(w.time, p, j) {
      NeverLate(w, vs, i, j);
    }
    assert CallTimes(w, vs, i, p, k) == Multiples(w.time, p, k);
  }

  // ---- One-shot timers ----

  /** A one-shot timer with deadline `due` waits, or has been called and has stopped. */
  ghost predicate OneShot(w: Wheel, vs: seq<Event>, i: nat, due: nat) {
    var r := AfterAll(w, vs);
    && i < |w.timers| && !r.timers[i].autoReload && r.timers[i].callback.Some?
    && if r.timers[i].active then
         DueAt(r.timers[i], due) && r.time <= due <= r.time + w.timers[i].period
         && CallsOf(r.calls, i) == CallsOf(w.calls, i) && !LateAt(w, vs, i, due)
       else
         due <= r.time && CallsOf(r.calls, i) == CallsOf(w.calls, i) + [due + Lag(w, vs, i, due)]
  }

  lemma OneShotWaits(w: Wheel, vs: seq<Event>, i: nat, due: nat)
    requires vs != [] && OneShot(w, vs[..|vs| - 1], i, due) && Measurable(w.timers[i].period, vs)
    requires MayHappen(AfterAll(w, vs[..|vs| - 1]), vs[|vs| - 1])
    requires AfterAll(w, vs[..|vs| - 1]).timers[i].active
    ensures OneShot(w, vs, i, due)
  {
    hide After, AfterAll, MayHappen, CallsOf, Shown, LateAt, Measurable;
    var before, v := vs[..|vs| - 1], vs[|vs| - 1];
    LastEvent(w, vs);
    LateAtLast(w, vs, i, due);
    NoEarlyResume(w.timers[i].period, vs);
    EventExact(AfterAll(w, before), v, i, due);
  }

  lemma OneShotStopped(w: Wheel, vs: seq<Event>, i: nat, due: nat)
    requires vs != [] && OneShot(w, vs[..|vs| - 1], i, due) && MayHappen(AfterAll(w, vs[..|vs| - 1]), vs[|vs| - 1])
    requires !AfterAll(w, vs[..|vs| - 1]).timers[i].active
    ensures OneShot(w, vs, i, due)
  {
    hide After, AfterAll, MayHappen, CallsOf, Shown, LateAt;
    var before, v := vs[..|vs| - 1], vs[|vs| - 1];
    LastEvent(w, vs);
    LateAtLast(w, vs, i, due);
    StoppedStays(AfterAll(w, before), v, i);
    assert Lag(w, vs, i, due) == Lag(w, before, i, due);
  }

  lemma LastEvent(w: Wheel, vs: seq<Event>)
    requires vs != []
    ensures AfterAll(w, vs) == After(AfterAll(w, vs[..|vs| - 1]), vs[|vs| - 1])
  {
  }

  lemma NoEarlyResume(p: nat, vs: seq<Event>)
    requires Measurable(p, vs) && vs != []
    ensures p <= TWO31 + 1 && (vs[|vs| - 1].ResumeEvent? ==> p <= TWO31)
  {
  }

  lemma StoppedStays(w: Wheel, v: Event, i: nat)
    requires i < |w.timers| && !w.timers[i].active && w.timers[i].callback.Some? && MayHappen(w, v)
    ensures w.time <= After(w, v).time && (v.SwitchEvent? ==> w.time < After(w, v).time)
    ensures var r := After(w, v); r.timers[i] == w.timers[i] && CallsOf(r.calls, i) == CallsOf(w.calls, i)
  {
    hide CallsOf, Firings, DueSlots;
    var time := After(w, v).time;
    ServiceCalls(w.timers, time, |w.timers|, i);
    CallsOfConcat(w.calls, Firings(DueSlots(w.timers, Shown(time), |w.timers|), time), i);
    assert AllServiced(w.timers, ServiceAll(w.timers, Shown(time)), Shown(time));
  }

  lemma {:induction false} OneShotRun(w: Wheel, vs: seq<Event>, i: nat)
    requires i < |w.timers| && Runs(w.timers[i]) && !w.timers[i].autoReload && w.timers[i].callback.Some?
    requires w.timers[i].deadline == Add(Shown(w.time), w.timers[i].period)
    requires Measurable(w.timers[i].period, vs) && Paced(w, vs)
    ensures OneShot(w, vs, i, w.time + w.timers[i].period)
  {
    hide After, CallsOf, Shown;
    var n := |vs| - 1;
    if vs == [] {
      AddShown(w.time, w.timers[i].period);
    } else {
      hide OneShot;
      PacedPrefix(w, vs, n);
      OneShotRun(w, vs[..n], i);
      assert MayHappen(AfterAll(w, vs[..n]), vs[n]);
      if AfterAll(w, vs[..n]).timers[i].active {
        OneShotWaits(w, vs, i, w.time + w.timers[i].period);
      } else {
        OneShotStopped(w, vs, i, w.time + w.timers[i].period);
      }
    }
  }

  /** Started at T, a one-shot timer of period `p` is called once, at T + p or, when a SysTick is
      the first to service it after that, a millisecond later; from then on it is stopped. */
  lemma FiresOnce(w: Wheel, vs: seq<Event>, i: nat)
    requires i < |w.timers| && Runs(w.timers[i]) && !w.timers[i].autoReload && w.timers[i].callback.Some?
    requires w.timers[i].deadline == Add(Shown(w.time), w.timers[i].period)
    requires Measurable(w.timers[i].period, vs) && Paced(w, vs)
    ensures var due, r := w.time + w.timers[i].period, AfterAll(w, vs);
      && (r.timers[i].active ==> r.time <= due && CallsOf(r.calls, i) == CallsOf(w.calls, i))
      && (!r.timers[i].active ==>
            due <= r.time && CallsOf(r.calls, i) == CallsOf(w.calls, i) + [due + Lag(w, vs, i, due)])
  {
    hide After, AfterAll, LateAt, CallsOf, Shown, Paced;
    OneShotRun(w, vs, i);
  }

  /** Late for the same reason as an auto-reload timer, and for no other. */
  lemma OneShotLateIff(w: Wheel, vs: seq<Event>, i: nat)
    requires i < |w.timers| && Runs(w.timers[i]) && !w.timers[i].autoReload && w.timers[i].callback.Some?
    requires w.timers[i].deadline == Add(Shown(w.time), w.timers[i].period)
    requires Measurable(w.timers[i].period, vs) && Paced(w, vs)
    ensures var due := w.time + w.timers[i].period; LateAt(w, vs, i, due) <==> KeptAway(w, vs, due)
  {
    hide LateTick;
    var due := w.time + w.timers[i].period;
    if LateAt(w, vs, i, due) {
      var n :| 0 <= n < |vs| && LateTick(w, vs, i, n, due);
      OneShotWasKept(w, vs, i, n);
    }
    if KeptAway(w, vs, due) {
      var n :| 0 <= n < |vs| - 1 && vs[n].SwitchEvent? && AfterAll(w, vs[..n + 1]).time == due && vs[n + 1].TickEvent?;
      KeptIsLateOnce(w, vs, i, n);
    }
  }

  lemma OneShotAt(w: Wheel, vs: seq<Event>, i: nat, n: nat)
    requires i < |w.timers| && Runs(w.timers[i]) && !w.timers[i].autoReload && w.timers[i].callback.Some?
    requires w.timers[i].deadline == Add(Shown(w.time), w.timers[i].period)
    requires Measurable(w.timers[i].period, vs) && Paced(w, vs) && n < |vs|
    ensures var b, v, r, due := AfterAll(w, vs[..n]), vs[n], AfterAll(w, vs[..n + 1]), w.time + w.timers[i].period;
      && (v.SwitchEvent? && r.time == due ==> DueAt(r.timers[i], due))
      && (r.time == due && DueAt(r.timers[i], due) ==> v.SwitchEvent?)
  {
    hide After, AfterAll, MayHappen, CallsOf, Shown, LateAt, Paced, Measurable;
    var due, b := w.time + w.timers[i].period, AfterAll(w, vs[..n]);
    PacedPrefix(w, vs, n);
    MeasurablePrefix(w.timers[i].period, vs, n);
    OneShotRun(w, vs[..n], i);
    NextEvent(w, vs, n);
    if b.timers[i].active {
      EventExact(b, vs[n], i, due);
    } else {
      StoppedStays(b, vs[n], i);
    }
  }

  lemma MeasurablePrefix(p: nat, vs: seq<Event>, n: nat)
    requires Measurable(p, vs) && n < |vs|
    ensures Measurable(p, vs[..n]) && p <= TWO31 + 1 && (vs[n].ResumeEvent? ==> p <= TWO31)
  {
  }

  lemma NextEvent(w: Wheel, vs: seq<Event>, n: nat)
    requires n < |vs| && Paced(w, vs)
    ensures AfterAll(w, vs[..n + 1]) == After(AfterAll(w, vs[..n]), vs[n]) && MayHappen(AfterAll(w, vs[..n]), vs[n])
  {
    assert vs[..n + 1][..n] == vs[..n];
  }

  lemma OneShotWasKept(w: Wheel, vs: seq<Event>, i: nat, n: nat)
    requires i < |w.timers| && Runs(w.timers[i]) && !w.timers[i].autoReload && w.timers[i].callback.Some?
    requires w.timers[i].deadline == Add(Shown(w.time), w.timers[i].period)
    requires Measurable(w.timers[i].period, vs) && Paced(w, vs)
    requires n < |vs| && LateTick(w, vs, i, n, w.time + w.timers[i].period)
    ensures KeptAway(w, vs, w.time + w.timers[i].period)
  {
    hide After, AfterAll, Paced, Shown;
    if n == 0 {
      NoEvents(w, vs);
    } else {
      OneShotAt(w, vs, i, n - 1);
      assert vs[..(n - 1) + 1] == vs[..n] && vs[(n - 1) + 1].TickEvent?;
    }
  }

  lemma KeptIsLateOnce(w: Wheel, vs: seq<Event>, i: nat, n: nat)
    requires i < |w.timers| && Runs(w.timers[i]) && !w.timers[i].autoReload && w.timers[i].callback.Some?
    requires w.timers[i].deadline == Add(Shown(w.time), w.timers[i].period)
    requires Measurable(w.timers[i].period, vs) && Paced(w, vs)
    requires n < |vs| - 1 && vs[n].SwitchEvent? && vs[n + 1].TickEvent?
    requires AfterAll(w, vs[..n + 1]).time == w.time + w.timers[i].period
    ensures LateAt(w, vs, i, w.time + w.timers[i].period)
  {
    hide After, AfterAll, Paced;
    OneShotAt(w, vs, i, n);
    assert LateTick(w, vs, i, n + 1, w.time + w.timers[i].period);
  }

  // ---- Which periods work ----

  /** Would a SysTick at `time` call the timer? */
  predicate CallsAt(t: Timer, time: nat) {
    Due(t, Shown(time))
  }

  /** In tick mode, the first call of a timer started at `time`: on time, not before. */
  ghost predicate FirstOnTime(t: Timer, time: nat) {
    && t.period >= 1
    && (forall at :: time < at < time + t.period ==> !CallsAt(t, at))
    && CallsAt(t, time + t.period)
  }

  /** The signed comparison is right for periods from 1 to 2^31 + 1, and for no others: a longer
      period fires at the next tick, a period of 0 one tick late. */
  lemma FirstCallExact(t: Timer, time: nat)
    requires Runs(t) && t.deadline == Add(Shown(time), t.period)
    ensures FirstOnTime(t, time) <==> 1 <= t.period <= TWO31 + 1
  {
    var p := t.period;
    AddShown(time, p);
    if 1 <= p <= TWO31 + 1 {
      forall at | time < at < time + p ensures !CallsAt(t, at) {
        DueExactly(t, time + p, at);
      }
      DueExactly(t, time + p, time + p);
    } else if p > TWO31 + 1 {
      TooLong(t, time);
      assert CallsAt(t, time + 1);
    }
  }

  /** A service at the very time of the start, as by an idle task that runs again within the
      millisecond, leaves the timer alone just for periods from 1 to 2^31. */
  lemma QuietAtStartIff(t: Timer, time: nat)
    requires Runs(t) && t.deadline == Add(Shown(time), t.period)
    ensures !CallsAt(t, time) <==> 1 <= t.period <= TWO31
  {
    AddShown(time, t.period);
    Ahead(time, t.period);
  }

  lemma ShownWraps(x: nat)
    ensures Shown(x + TWO32) == Shown(x)
  {
  }

  lemma TooLong(t: Timer, time: nat)
    requires Runs(t) && t.period > TWO31 + 1 && t.deadline == Shown(time + t.period)
    ensures CallsAt(t, time + 1)
  {
    var late := TWO32 - t.period + 1;
    hide Shown;
    Ahead(time + t.period, late);
    assert time + t.period + late == time + 1 + TWO32;
    ShownWraps(time + 1);
  }
}
