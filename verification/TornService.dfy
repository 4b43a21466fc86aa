/** The idle task's pass over the timers, interrupted by that of SysTick. The pass is not a
    critical section and reads the clock once. */
module TornService {
  import opened Timers

  /** The pool in the middle of things, and the slots whose callbacks have been called so far. */
  datatype Pass = Pass(timers: seq<Timer>, called: seq<nat>)

  /** The update of a due slot. */
  function Updated(t: Timer): Timer {
    if t.autoReload then t.(deadline := Add(t.deadline, t.period)) else t.(active := false)
  }

  function Calls(t: Timer, now: Word): nat {
    if Due(t, now) && t.callback.Some? then 1 else 0
  }

  /** The turns of a pass for slots `lo` to `hi - 1`; `now` is the time it has read. */
  function Turns(p: Pass, now: Word, lo: nat, hi: nat): (r: Pass)
    requires lo <= hi <= |p.timers|
    ensures |r.timers| == |p.timers|
  {
    if lo == hi then p
    else
      var b := Turns(p, now, lo, hi - 1);
      Pass(b.timers[hi - 1 := Serviced(b.timers[hi - 1], now)],
           if Calls(b.timers[hi - 1], now) == 1 then b.called + [hi - 1] else b.called)
  }

  lemma {:induction false} TurnsAre(p: Pass, now: Word, lo: nat, hi: nat)
    requires lo <= hi <= |p.timers|
    ensures var r := Turns(p, now, lo, hi);
      forall j :: 0 <= j < |p.timers| ==>
        && r.timers[j] == (if lo <= j < hi then Serviced(p.timers[j], now) else p.timers[j])
        && multiset(r.called)[j] == multiset(p.called)[j] + (if lo <= j < hi then Calls(p.timers[j], now) else 0)
  {
    hide Serviced, Calls;
    if lo < hi {
      TurnsAre(p, now, lo, hi - 1);
      OneMoreTurn(Turns(p, now, lo, hi - 1), now, hi - 1);
    }
  }

  lemma OneMoreTurn(b: Pass, now: Word, i: nat)
    requires i < |b.timers|
    ensures var called := if Calls(b.timers[i], now) == 1 then b.called + [i] else b.called;
      forall j: nat :: multiset(called)[j] == multiset(b.called)[j] + (if j == i then Calls(b.timers[i], now) else 0)
  {
  }

  /** What slot `j` looks like, and how often its callback has been called. */
  ghost function At(p: Pass, j: nat): (Timer, nat)
    requires j < |p.timers|
  {
    (p.timers[j], multiset(p.called)[j])
  }

  lemma TurnsAt(p: Pass, now: Word, lo: nat, hi: nat, j: nat)
    requires lo <= hi <= |p.timers| && j < |p.timers|
    ensures At(Turns(p, now, lo, hi), j) ==
      if lo <= j < hi then (Serviced(p.timers[j], now), At(p, j).1 + Calls(p.timers[j], now)) else At(p, j)
    ensures Turns(p, now, lo, hi).timers[j] == if lo <= j < hi then Serviced(p.timers[j], now) else p.timers[j]
  {
    TurnsAre(p, now, lo, hi);
  }

  /** The update of slot `i` and its call, whatever the time. */
  function Update(p: Pass, i: nat, call: bool): (r: Pass)
    requires i < |p.timers|
    ensures |r.timers| == |p.timers|
  {
    Pass(p.timers[i := Updated(p.timers[i])], if call then p.called + [i] else p.called)
  }

  lemma UpdateAt(p: Pass, i: nat, call: bool, j: nat)
    requires i < |p.timers| && j < |p.timers|
    ensures At(Update(p, i, call), j) ==
      if j == i then (Updated(p.timers[i]), At(p, j).1 + if call then 1 else 0) else At(p, j)
  {
  }

  /** All turns together are `timer_service_tick`. */
  lemma {:induction false} WholePass(ts: seq<Timer>, now: Word, n: nat)
    requires n <= |ts|
    ensures Turns(Pass(ts, []), now, 0, n).called == DueSlots(ts, now, n)
    ensures n == |ts| ==> Turns(Pass(ts, []), now, 0, n).timers == ServiceAll(ts, now)
  {
    TurnsAre(Pass(ts, []), now, 0, n);
    if n > 0 {
      WholePass(ts, now, n - 1);
      TurnsAre(Pass(ts, []), now, 0, n - 1);
    }
  }

  /** SysTick, whose clock shows `later`, interrupts the pass in front of slot `i`, or, if
      `checked`, behind the check of slot `i` and in front of its update. */
  function Torn(ts: seq<Timer>, now: Word, later: Word, i: nat, checked: bool): (r: Pass)
    requires i <= |ts| && (checked ==> i < |ts|)
    ensures |r.timers| == |ts|
  {
    var a := Turns(Turns(Pass(ts, []), now, 0, i), later, 0, |ts|);
    if !checked then Turns(a, now, i, |ts|)
    else if !Due(ts[i], now) then Turns(a, now, i + 1, |ts|)
    else Turns(Update(a, i, ts[i].callback.Some?), now, i + 1, |ts|)
  }

  /** The same after two passes. */
  function Twice(t: Timer, first: Word, second: Word): (Timer, nat) {
    var m := Serviced(t, first);
    (Serviced(m, second), Calls(t, first) + Calls(m, second))
  }

  /** Slot `j` sees the pass and SysTick one after the other, in either order. */
  ghost predicate InOrder(ts: seq<Timer>, r: Pass, now: Word, later: Word, j: nat)
    requires j < |ts| == |r.timers|
  {
    At(r, j) == Twice(ts[j], now, later) || At(r, j) == Twice(ts[j], later, now)
  }

  /** Due for both passes, and for neither once it has been serviced: as a one-shot timer, or an
      auto-reload timer whose next deadline lies ahead. */
  predicate DueOnce(t: Timer, now: Word, later: Word) {
    && Due(t, now) && Due(t, later)
    && !Due(Updated(t), now) && !Due(Updated(t), later)
  }

  /** An interrupted pass is a pass and a SysTick in some order for every slot, just when SysTick
      does not come between check and update of a slot that is due once. */
  lemma TornPassIff(ts: seq<Timer>, now: Word, later: Word, i: nat, checked: bool)
    requires i <= |ts| && (checked ==> i < |ts|)
    requires forall j :: 0 <= j < |ts| && ts[j].inUse ==> ts[j].callback.Some?
    ensures var r := Torn(ts, now, later, i, checked);
      (forall j: nat :: j < |ts| ==> InOrder(ts, r, now, later, j)) <==> !(checked && DueOnce(ts[i], now, later))
  {
    hide InOrder, DueOnce, Torn;
    var r := Torn(ts, now, later, i, checked);
    forall j: nat | j < |ts|
      ensures InOrder(ts, r, now, later, j) <==> !(checked && j == i && DueOnce(ts[i], now, later))
    {
      TornSlot(ts, now, later, i, checked, j);
    }
    if checked && DueOnce(ts[i], now, later) {
      assert !InOrder(ts, r, now, later, i);
    }
  }

  /** What becomes of slot `j`. */
  lemma TornIs(ts: seq<Timer>, now: Word, later: Word, i: nat, checked: bool, j: nat)
    requires i <= |ts| && (checked ==> i < |ts|) && j < |ts|
    ensures var r, t := Torn(ts, now, later, i, checked), ts[j];
      At(r, j) ==
        if j < i then Twice(t, now, later)
        else if j > i || !checked then Twice(t, later, now)
        else if Due(t, now) then (Updated(Serviced(t, later)), Calls(t, later) + Calls(t, now))
        else (Serviced(t, later), Calls(t, later))
  {
    hide Turns, At, Serviced, Due, Updated, Update;
    var o := Pass(ts, []);
    var p := Turns(o, now, 0, i);
    var a := Turns(p, later, 0, |ts|);
    NoneCalled(ts, j);
    TurnsAt(o, now, 0, i, j);
    TurnsAt(p, later, 0, |ts|, j);
    if !checked {
      TurnsAt(a, now, i, |ts|, j);
    } else if !Due(ts[i], now) {
      TurnsAt(a, now, i + 1, |ts|, j);
    } else {
      UpdateAt(a, i, ts[i].callback.Some?, j);
      TurnsAt(Update(a, i, ts[i].callback.Some?), now, i + 1, |ts|, j);
      AtTimer(Update(a, i, ts[i].callback.Some?), j);
    }
  }

  lemma NoneCalled(ts: seq<Timer>, j: nat)
    requires j < |ts|
    ensures At(Pass(ts, []), j) == (ts[j], 0)
  {
  }

  lemma AtTimer(p: Pass, j: nat)
    requires j < |p.timers|
    ensures At(p, j).0 == p.timers[j]
  {
  }

  lemma TornSlot(ts: seq<Timer>, now: Word, later: Word, i: nat, checked: bool, j: nat)
    requires i <= |ts| && (checked ==> i < |ts|) && j < |ts|
    requires ts[j].inUse ==> ts[j].callback.Some?
    ensures InOrder(ts, Torn(ts, now, later, i, checked), now, later, j)
      <==> !(checked && j == i && DueOnce(ts[i], now, later))
  {
    hide Torn, Sub;
    TornIs(ts, now, later, i, checked, j);
  }

  /** Then its callback is called twice, and an auto-reload timer skips a period. */
  lemma TornSlotCalledTwice(ts: seq<Timer>, now: Word, later: Word, i: nat)
    requires i < |ts| && ts[i].callback.Some? && DueOnce(ts[i], now, later)
    ensures var r := Torn(ts, now, later, i, true);
      && At(r, i) == (Updated(Updated(ts[i])), 2)
      && Twice(ts[i], now, later) == Twice(ts[i], later, now) == (Updated(ts[i]), 1)
  {
    hide Torn, Sub;
    TornIs(ts, now, later, i, true, i);
  }

  /** A timer at its deadline, of a period that the clock can measure, is due once a millisecond
      later too, unless its period is 1. */
  lemma AtDeadlineDueOnceIff(t: Timer, now: Word)
    requires Runs(t) && t.deadline == now && 1 <= t.period <= TWO31
    ensures DueOnce(t, now, Add(now, 1)) <==> !t.autoReload || t.period > 1
  {
  }
}
