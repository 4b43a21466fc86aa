/** The software timers of timer.c: a pool of slots, deadlines on a 32-bit millisecond
    clock that wraps, and the loops over the pool. */
module Timers {
  import opened Selection

  const TWO32: nat := 0x1_0000_0000
  const TWO31: nat := 0x8000_0000
  const FOREVER: nat := 0xFFFF_FFFF

  type Word = w: nat | w < 0x1_0000_0000

  /** The clock `s_ticks` shows after `time` milliseconds. */
  function Shown(time: nat): Word {
    time % TWO32
  }

  function Add(a: Word, b: Word): Word {
    (a + b) % TWO32
  }

  function Sub(a: Word, b: Word): Word {
    (a - b) % TWO32
  }

  /** One slot; a callback is named by a number. */
  datatype Timer = Timer(
    inUse: bool,
    active: bool,
    autoReload: bool,
    period: Word,
    deadline: Word,
    callback: Option<nat>)

  predicate Runs(t: Timer) {
    t.inUse && t.active
  }

  /** `(int32_t)(now - deadline) >= 0` for a running timer. */
  predicate Due(t: Timer, now: Word) {
    Runs(t) && Sub(now, t.deadline) < TWO31
  }

  /** What one turn of the service loop makes of a slot. */
  function Serviced(t: Timer, now: Word): Timer {
    if !Due(t, now) then t
    else if t.autoReload then t.(deadline := Add(t.deadline, t.period))
    else t.(active := false)
  }

  /** `(int32_t)(deadline - now)`, or 0 when that is not positive. */
  function Remaining(t: Timer, now: Word): Word {
    var d := Sub(t.deadline, now);
    if 0 < d < TWO31 then d else 0
  }

  ghost predicate AllServiced(before: seq<Timer>, after: seq<Timer>, now: Word) {
    && |after| == |before|
    && forall i :: 0 <= i < |before| ==> after[i] == Serviced(before[i], now)
  }

  ghost function ServiceAll(ts: seq<Timer>, now: Word): (r: seq<Timer>)
    ensures AllServiced(ts, r, now)
  {
    seq(|ts|, i requires 0 <= i < |ts| => Serviced(ts[i], now))
  }

  /** The slots below `n` that are due and have a callback, in slot order. */
  function DueSlots(ts: seq<Timer>, now: Word, n: nat): seq<nat>
    requires n <= |ts|
  {
    if n == 0 then []
    else if Due(ts[n - 1], now) && ts[n - 1].callback.Some? then DueSlots(ts, now, n - 1) + [n - 1]
    else DueSlots(ts, now, n - 1)
  }

  /** Each of them once, in slot order, and no others. */
  lemma {:induction false} DueSlotsAre(ts: seq<Timer>, now: Word, n: nat)
    requires n <= |ts|
    ensures var r := DueSlots(ts, now, n);
      && (forall x: nat :: x in r <==> x < n && Due(ts[x], now) && ts[x].callback.Some?)
      && (forall i, j :: 0 <= i < j < |r| ==> r[i] < r[j])
  {
    if n > 0 {
      DueSlotsAre(ts, now, n - 1);
      var r := DueSlots(ts, now, n - 1);
      assert forall i :: 0 <= i < |r| ==> r[i] in r;
    }
  }

  /** `b` is the soonest remaining time of the running timers, `FOREVER` if there is none. */
  ghost predicate IsNextReady(ts: seq<Timer>, now: Word, b: nat) {
    && b <= FOREVER
    && (forall i :: 0 <= i < |ts| && Runs(ts[i]) ==> b <= Remaining(ts[i], now))
    && (b < FOREVER ==> exists i :: 0 <= i < |ts| && Runs(ts[i]) && b == Remaining(ts[i], now))
  }

  /** `s_timers`. */
  class TimerPool {
    const slots: array<Timer>

    constructor (n: nat)
      ensures fresh(slots) && slots.Length == n
      ensures forall i :: 0 <= i < n ==> !slots[i].inUse
    {
      slots := new Timer[n](_ => Timer(false, false, false, 0, 0, None));
    }

    /** `timer_create`: the first free slot, or -1 when there is none or no callback. */
    method Create(period: Word, autoReload: bool, callback: Option<nat>) returns (handle: int)
      modifies slots
      ensures handle == -1 ==> slots[..] == old(slots[..])
      ensures handle == -1 <==> callback.None? || forall i :: 0 <= i < slots.Length ==> old(slots[i].inUse)
      ensures handle != -1 ==>
        && 0 <= handle < slots.Length && !old(slots[handle].inUse)
        && (forall i :: 0 <= i < handle ==> old(slots[i].inUse))
        && slots[..] == old(slots[..])[handle := Timer(true, false, autoReload, period, 0, callback)]
    {
      handle := -1;
      if callback.None? {
        return;
      }
      var i := 0;
      while i < slots.Length
        invariant 0 <= i <= slots.Length
        invariant slots[..] == old(slots[..])
        invariant forall j :: 0 <= j < i ==> slots[j].inUse
      {
        if !slots[i].inUse {
          slots[i] := Timer(true, false, autoReload, period, 0, callback);
          handle := i;
          return;
        }
        i := i + 1;
      }
    }

    /** `timer_start`: a deadline one period from now. */
    method Start(handle: int, now: Word)
      modifies slots
      ensures slots[..] ==
        if 0 <= handle < slots.Length && old(slots[handle].inUse)
        then old(slots[..])[handle := old(slots[handle]).(deadline := Add(now, old(slots[handle].period)), active := true)]
        else old(slots[..])
    {
      if handle < 0 || handle >= slots.Length {
        return;
      }
      if slots[handle].inUse {
        slots[handle] := slots[handle].(deadline := Add(now, slots[handle].period), active := true);
      }
    }

    /** `timer_stop`. */
    method Stop(handle: int)
      modifies slots
      ensures slots[..] ==
        if 0 <= handle < slots.Length && old(slots[handle].inUse)
        then old(slots[..])[handle := old(slots[handle]).(active := false)]
        else old(slots[..])
    {
      if handle < 0 || handle >= slots.Length {
        return;
      }
      if slots[handle].inUse {
        slots[handle] := slots[handle].(active := false);
      }
    }

    /** `timer_service_tick`: returns the slots whose callbacks are called, in order. */
    method ServiceTick(now: Word) returns (called: seq<nat>)
      modifies slots
      ensures AllServiced(old(slots[..]), slots[..], now)
      ensures called == DueSlots(old(slots[..]), now, slots.Length)
    {
      called := [];
      ghost var was := slots[..];
      var i := 0;
      while i < slots.Length
        invariant 0 <= i <= slots.Length
        invariant forall j :: 0 <= j < i ==> slots[j] == Serviced(was[j], now)
        invariant forall j :: i <= j < slots.Length ==> slots[j] == was[j]
        invariant called == DueSlots(was, now, i)
      {
        if slots[i].inUse && slots[i].active && Sub(now, slots[i].deadline) < TWO31 {
          var cb := slots[i].callback;
          if slots[i].autoReload {
            slots[i] := slots[i].(deadline := Add(slots[i].deadline, slots[i].period));
          } else {
            slots[i] := slots[i].(active := false);
          }
          if cb.Some? {
            called := called + [i];
          }
        }
        i := i + 1;
      }
    }

    /** `timer_get_next_ready_in_ms`. */
    method NextReady(now: Word) returns (soonest: Word)
      ensures IsNextReady(slots[..], now, soonest)
    {
      soonest := FOREVER;
      var i := 0;
      while i < slots.Length
        invariant 0 <= i <= slots.Length
        invariant IsNextReady(slots[..i], now, soonest)
      {
        if slots[i].inUse && slots[i].active {
          var d := Sub(slots[i].deadline, now);
          var remaining := if d < TWO31 then d else 0;
          if remaining < soonest {
            soonest := remaining;
          }
        }
        assert slots[..i + 1] == slots[..i] + [slots[i]];
        NextReadySnoc(slots[..i], slots[i], now, soonest);
        i := i + 1;
      }
      assert slots[..i] == slots[..];
    }
  }

  /** A new minimum is the old one or the last slot's. */
  lemma NextReadySnoc(ts: seq<Timer>, t: Timer, now: Word, b: Word)
    requires !Runs(t) || b <= Remaining(t, now)
    requires IsNextReady(ts, now, b) || (Runs(t) && b == Remaining(t, now) && exists c :: IsNextReady(ts, now, c) && b < c)
    ensures IsNextReady(ts + [t], now, b)
  {
    var r := ts + [t];
    assert r[|ts|] == t;
    forall i | 0 <= i < |r| && Runs(r[i]) ensures b <= Remaining(r[i], now) {
      assert i < |ts| ==> r[i] == ts[i];
    }
    if IsNextReady(ts, now, b) && b < FOREVER {
      var i :| 0 <= i < |ts| && Runs(ts[i]) && b == Remaining(ts[i], now);
      assert Runs(r[i]) && b == Remaining(r[i], now);
    }
  }
}
