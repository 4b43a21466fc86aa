/** What `event_set` and `event_clear` leave of the flags of a group, flag by flag. */
module EventFlags {
  import opened Selection
  import opened Kernel
  import opened Effects
  import opened EventBits
  import opened EventSweep
  import opened Primitives
  import opened System
  import opened Integrity
  import opened IntegritySteps
  import opened Runs
  import opened Frames
  import opened EventRuns

  /** Task `t` waited for flags of group `e` to take them, and the sweep from `k` to `r` woke it. */
  ghost predicate Served(s: Sys, k: State, r: State, e: nat, t: nat) {
    && t < |s.pcs| && t < |k.tasks| && t < |r.tasks|
    && k.tasks[t].on == Some(2 * e) && r.tasks[t].on.None?
    && Awaiting(s.pcs[t]) && s.pcs[t].op.e == e && s.pcs[t].op.autoClear
  }

  /** Its note in the log: it took its mask from flags that met its condition. */
  ghost predicate NoteOf(s: Sys, e: nat, x: Note, t: nat) {
    && x.Consumed? && x.group == e && x.task == t < |s.pcs| && Awaiting(s.pcs[t])
    && x.mask == s.pcs[t].op.mask && Met(x.observed, x.mask, s.pcs[t].op.mode)
  }

  /** From entry `n` on, the log has one note for each task served and no others. */
  ghost predicate Noted(s: Sys, k: State, r: State, e: nat, log: seq<Note>, n: nat) {
    && (forall j :: n <= j < |log| ==>
          log[j].Consumed? && Served(s, k, r, e, log[j].task) && NoteOf(s, e, log[j], log[j].task))
    && (forall t: nat :: Served(s, k, r, e, t) ==> exists j :: n <= j < |log| && NoteOf(s, e, log[j], t))
  }

  /** The note that waking waiter `i` leaves. */
  lemma WakeNote(s: Sys, w: Swept, e: nat, i: nat)
    requires e < |s.objs| && s.objs[e].Group? && SysInv(Embed(s, w, e)) && SweepOk(Embed(s, w, e), e, i)
    requires i < |w.k.lists[2 * e]| && Satisfied(w, 2 * e, i)
    ensures Shaped(w.k)
    ensures var r, t := SweepWake(w, 2 * e, i), w.k.lists[2 * e][i];
      && w.log <= r.log && |r.log| <= |w.log| + 1
      && (|r.log| > |w.log| ==> NoteOf(s, e, r.log[|w.log|], t) && Served(s, w.k, r.k, e, t))
      && (Served(s, w.k, r.k, e, t) ==> |r.log| > |w.log|)
  {
    hide Met, Uses, PcOk, WakersDiffer, SweepWake, Without;
    var v := Embed(s, w, e);
    var t := w.k.lists[2 * e][i];
    ListedAwaits(v, e, i);
    assert SlotOk(v, t);
    FindsOwnSlot(v, t);
    SweepWakeEffect(w, 2 * e, i);
    SweepWakeData(w, e, i, v.pcs[t].slot);
  }

  /** The tasks served from `k` on are the one woken first, if it takes flags, and those after. */
  lemma NotedNext(s: Sys, k: State, u: State, r: State, e: nat, t: nat, log: seq<Note>, n: nat, m: nat)
    requires |k.tasks| == |u.tasks| == |r.tasks| && t < |k.tasks| && n <= m <= n + 1 && m <= |log|
    requires u.tasks[t].on.None? && k.tasks[t].on == Some(2 * e) && r.tasks[t].on.None?
    requires forall x :: 0 <= x < |k.tasks| && x != t ==> u.tasks[x].on == k.tasks[x].on
    requires m > n ==> NoteOf(s, e, log[n], t) && Served(s, k, u, e, t)
    requires Served(s, k, u, e, t) ==> m > n
    requires Noted(s, u, r, e, log, m)
    ensures Noted(s, k, r, e, log, n)
  {
    hide NoteOf;
    forall j | n <= j < |log|
      ensures log[j].Consumed? && Served(s, k, r, e, log[j].task) && NoteOf(s, e, log[j], log[j].task)
    {
      if j < m {
        NoteTask(s, e, log[j], t);
      }
    }
    forall x: nat | Served(s, k, r, e, x) ensures exists j :: n <= j < |log| && NoteOf(s, e, log[j], x) {
      if x != t {
        assert Served(s, u, r, e, x);
      }
    }
  }

  lemma NoteTask(s: Sys, e: nat, x: Note, t: nat)
    requires NoteOf(s, e, x, t)
    ensures x.Consumed? && x.task == t
  {
  }

  /** A sweep notes exactly the auto-clear waiters that it wakes. */
  lemma {:induction false} SweepNotes(s: Sys, w: Swept, e: nat, i: nat)
    requires e < |s.objs| && s.objs[e].Group? && SysInv(Embed(s, w, e)) && SweepOk(Embed(s, w, e), e, i)
    ensures Shaped(w.k)
    ensures var r := Sweep(w, 2 * e, i); Noted(s, w.k, r.k, e, r.log, |w.log|)
    decreases |w.k.lists[2 * e]| - i
  {
    hide SweepWake, Satisfied, PcOk, Inv, WakersDiffer, SweepOk, NoteOf, Noted;
    if i < |w.k.lists[2 * e]| {
      if Satisfied(w, 2 * e, i) {
        var u := SweepWake(w, 2 * e, i);
        SweepWakes(s, w, e, i);
        SweepWakeCore(s, w, e, i);
        WakeNote(s, w, e, i);
        SweepLeaves(s, u, e, i);
        SweepGrows(u, 2 * e, i);
        SweepWakeEffect(w, 2 * e, i);
        SweepNotes(s, u, e, i);
        NotedNext(s, w.k, u.k, Sweep(u, 2 * e, i).k, e, w.k.lists[2 * e][i], Sweep(u, 2 * e, i).log, |w.log|, |u.log|);
      } else {
        SweepPasses(s, w, e, i);
        SweepNotes(s, w, e, i + 1);
      }
    } else {
      NobodyServed(s, w.k, e, w.log);
    }
  }

  lemma NobodyServed(s: Sys, k: State, e: nat, log: seq<Note>)
    ensures Noted(s, k, k, e, log, |log|)
  {
  }

  lemma SweepGrows(w: Swept, l: nat, i: nat)
    requires Shaped(w.k) && l < |w.k.lists|
    ensures w.log <= Sweep(w, l, i).log
  {
    OneFlag();
    SweepTakes(w, l, i, 1);
  }

  lemma OneFlag()
    ensures IsBit(1)
  {
  }

  /** So flag `b` was taken from the log's point of view just if some task that was served wanted it. */
  lemma TakenIsServed(s: Sys, k: State, r: State, e: nat, log: seq<Note>, n: nat, b: bv32)
    requires Noted(s, k, r, e, log, n)
    ensures TakenSince(log, n, b) <==> exists t: nat :: Served(s, k, r, e, t) && Has(s.pcs[t].op.mask, b)
  {
    hide Has, Met;
    if TakenSince(log, n, b) {
      var j :| n <= j < |log| && log[j].Consumed? && Has(log[j].mask, b);
      assert Served(s, k, r, e, log[j].task);
    }
    if t: nat :| Served(s, k, r, e, t) && Has(s.pcs[t].op.mask, b) {
      var j :| n <= j < |log| && NoteOf(s, e, log[j], t);
      assert Has(log[j].mask, b);
    }
  }

  // ---- What a woken waiter is shown ----

  /** The slots of two awaiting tasks differ. */
  lemma OtherSlot(s: Sys, t: nat, u: nat)
    requires |s.pcs| == |s.k.tasks| && t < |s.pcs| && u < |s.pcs| && t != u
    requires Awaiting(s.pcs[t]) && Awaiting(s.pcs[u]) && SlotOk(s, t) && SlotOk(s, u)
    ensures s.pcs[t].slot != s.pcs[u].slot
  {
  }

  /** Waking a waiter writes to no other waiter's slot. */
  lemma WakeWrites(s: Sys, w: Swept, e: nat, i: nat, t: nat)
    requires e < |s.objs| && s.objs[e].Group? && SysInv(Embed(s, w, e)) && SweepOk(Embed(s, w, e), e, i)
    requires i < |w.k.lists[2 * e]| && Satisfied(w, 2 * e, i) && t < |s.pcs| && Awaiting(s.pcs[t])
    ensures Shaped(w.k)
    ensures var r, p := SweepWake(w, 2 * e, i), s.pcs[t].slot;
      && p < |w.pool| && |r.pool| == |w.pool|
      && (w.k.lists[2 * e][i] != t ==> r.pool[p] == w.pool[p])
      && (w.k.lists[2 * e][i] == t ==> r.pool[p].Some? && r.pool[p].value.observed == w.bits)
  {
    hide Met, Uses, PcOk, WakersDiffer, SweepWake, Without;
    var v, x := Embed(s, w, e), w.k.lists[2 * e][i];
    ListedAwaits(v, e, i);
    assert SlotOk(v, x) && SlotOk(v, t);
    FindsOwnSlot(v, x);
    SweepWakeEffect(w, 2 * e, i);
    SweepWakeData(w, e, i, v.pcs[x].slot);
    if x != t {
      OtherSlot(v, x, t);
    }
  }

  /** The slot of a waiter that is off the list is not written to again. */
  lemma {:induction false} SlotStays(s: Sys, w: Swept, e: nat, i: nat, t: nat)
    requires e < |s.objs| && s.objs[e].Group? && SysInv(Embed(s, w, e)) && SweepOk(Embed(s, w, e), e, i)
    requires t < |s.pcs| && Awaiting(s.pcs[t]) && s.pcs[t].slot < |w.pool| && w.k.tasks[t].on.None?
    ensures Shaped(w.k) && Sweep(w, 2 * e, i).pool[s.pcs[t].slot] == w.pool[s.pcs[t].slot]
    decreases |w.k.lists[2 * e]| - i
  {
    hide SweepWake, Satisfied, PcOk, Inv, WakersDiffer, SweepOk;
    if i < |w.k.lists[2 * e]| {
      ListedAwaits(Embed(s, w, e), e, i);
      if Satisfied(w, 2 * e, i) {
        SweepWakes(s, w, e, i);
        SweepWakeCore(s, w, e, i);
        WakeWrites(s, w, e, i, t);
        SweepWakeEffect(w, 2 * e, i);
        SlotStays(s, SweepWake(w, 2 * e, i), e, i, t);
      } else {
        SweepPasses(s, w, e, i);
        SlotStays(s, w, e, i + 1, t);
      }
    }
  }

  /** A waiter that a sweep wakes is shown flags that were there when the sweep began, among them all
      that are left when it ends. */
  lemma {:induction false} SweepShows(s: Sys, w: Swept, e: nat, i: nat, t: nat, b: bv32)
    requires e < |s.objs| && s.objs[e].Group? && SysInv(Embed(s, w, e)) && SweepOk(Embed(s, w, e), e, i)
    requires t < |s.pcs| && Awaiting(s.pcs[t]) && s.pcs[t].slot < |w.pool| && IsBit(b)
    requires w.k.tasks[t].on == Some(2 * e)
    ensures Shaped(w.k)
    ensures var r, p := Sweep(w, 2 * e, i), s.pcs[t].slot;
      r.k.tasks[t].on.None? ==>
        && r.pool[p].Some?
        && (Has(r.bits, b) ==> Has(r.pool[p].value.observed, b))
        && (Has(r.pool[p].value.observed, b) ==> Has(w.bits, b))
    decreases |w.k.lists[2 * e]| - i
  {
    hide SweepWake, Satisfied, PcOk, Inv, WakersDiffer, SweepOk, Has, IsBit;
    if i < |w.k.lists[2 * e]| {
      if Satisfied(w, 2 * e, i) {
        var u := SweepWake(w, 2 * e, i);
        SweepWakes(s, w, e, i);
        SweepWakeCore(s, w, e, i);
        WakeWrites(s, w, e, i, t);
        SweepWakeEffect(w, 2 * e, i);
        WakeTakes(w, 2 * e, i, b);
        if w.k.lists[2 * e][i] == t {
          SlotStays(s, u, e, i, t);
          SweepTakes(u, 2 * e, i, b);
        } else {
          SweepShows(s, u, e, i, t, b);
        }
      } else {
        SweepPasses(s, w, e, i);
        SweepShows(s, w, e, i + 1, t, b);
      }
    }
  }

  /** `event_set`: every flag that was there or is set is there afterwards, unless an auto-clear
      waiter that the call wakes had it in its mask; no other flag appears. */
  lemma SetIsExact(s: Sys, e: nat, bits: bv32, b: bv32)
    requires SysInv(s) && EventInv(s) && Enabled(s, SetBits(e, bits)) && IsBit(b)
    ensures var r := Apply(s, SetBits(e, bits));
      && r.objs[e].Group? && r.pcs == s.pcs && r.objs == s.objs[e := r.objs[e]]
      && (Has(r.objs[e].bits, b) <==>
            && (Has(s.objs[e].bits, b) || Has(bits, b))
            && !exists t: nat :: Served(s, s.k, r.k, e, t) && Has(s.pcs[t].op.mask, b))
      && s.log + [WasSet(e, bits)] <= r.log && Noted(s, s.k, r.k, e, r.log, |s.log| + 1)
  {
    hide Sweep, PcOk, Inv, WakersDiffer, EventInv, SweepOk, With, Has, IsBit, Noted;
    var w := SweepStart(s, e, bits);
    StartCore(s, e, bits);
    StartUses(s, e, bits);
    SweepBegins(s, Embed(s, w, e), e);
    SweepNotes(s, w, e, 0);
    SweepTakes(w, 2 * e, 0, b);
    WithFlags(s.objs[e].bits, bits, b);
    TakenIsServed(s, s.k, Sweep(w, 2 * e, 0).k, e, Sweep(w, 2 * e, 0).log, |s.log| + 1, b);
  }

  /** A waiter that `event_set` wakes is shown flags that were there or are set, among them all that
      are left afterwards. */
  lemma SetShows(s: Sys, e: nat, bits: bv32, t: nat, b: bv32)
    requires SysInv(s) && EventInv(s) && Enabled(s, SetBits(e, bits)) && IsBit(b)
    requires t < |s.pcs| && s.k.tasks[t].on == Some(2 * e)
    ensures Awaiting(s.pcs[t])
    ensures var r, p := Apply(s, SetBits(e, bits)), s.pcs[t].slot;
      && p < |r.pool| && r.objs[e].Group?
      && (r.k.tasks[t].on.None? ==>
            && r.pool[p].Some?
            && (Has(r.objs[e].bits, b) ==> Has(r.pool[p].value.observed, b))
            && (Has(r.pool[p].value.observed, b) ==> Has(s.objs[e].bits, b) || Has(bits, b)))
  {
    hide Sweep, PcOk, Inv, WakersDiffer, SweepOk, With, Has, IsBit, Uses;
    var w := SweepStart(s, e, bits);
    OnListPc(s, 2 * e);
    assert PcFits(s, t) && SlotOk(s, t);
    StartCore(s, e, bits);
    StartUses(s, e, bits);
    SweepBegins(s, Embed(s, w, e), e);
    SweepShows(s, w, e, 0, t, b);
    WithFlags(s.objs[e].bits, bits, b);
  }

  /** With nobody listed the flags are exactly the old and the new ones. */
  lemma SetAlone(s: Sys, e: nat, bits: bv32, b: bv32)
    requires Shape(s) && Enabled(s, SetBits(e, bits)) && s.k.lists[2 * e] == []
    ensures var r := Apply(s, SetBits(e, bits));
      r.objs[e].Group? && (Has(r.objs[e].bits, b) <==> Has(s.objs[e].bits, b) || Has(bits, b))
  {
    hide Has, With;
    WithFlags(s.objs[e].bits, bits, b);
  }

  /** `event_clear` takes away the given flags and no others. */
  lemma ClearIsExact(s: Sys, e: nat, bits: bv32, b: bv32)
    requires Shape(s) && Enabled(s, ClearBits(e, bits)) && IsBit(b)
    ensures var r := Apply(s, ClearBits(e, bits));
      && r.objs[e].Group? && r == s.(objs := s.objs[e := r.objs[e]])
      && (Has(r.objs[e].bits, b) <==> Has(s.objs[e].bits, b) && !Has(bits, b))
  {
    hide Has, IsBit, Without;
    WithoutFlags(s.objs[e].bits, bits, b);
  }
}
