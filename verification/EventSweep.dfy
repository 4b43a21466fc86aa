/** One sweep, seen as a queue at a counter: waiters are served in list order, and what the
    first one takes is gone for those behind it. */
module EventSweep {
  import opened Kernel
  import opened EventBits
  import opened Primitives

  /** The log grows, and every consumption in it saw at most the flags of its time. */
  lemma {:induction false} LaterSeeLess(w: Swept, l: nat, i: nat, b: bv32)
    requires Shaped(w.k) && l < |w.k.lists| && !Has(w.bits, b)
    ensures var r := Sweep(w, l, i);
      && w.log <= r.log && !Has(r.bits, b)
      && forall j :: |w.log| <= j < |r.log| ==> r.log[j].Consumed? && !Has(r.log[j].observed, b)
    decreases |w.k.lists[l]| - i
  {
    hide SweepWake, Satisfied, Has, Shaped;
    if i < |w.k.lists[l]| {
      if Satisfied(w, l, i) {
        WakeSees(w, l, i, b);
        LaterSeeLess(SweepWake(w, l, i), l, i, b);
      } else {
        LaterSeeLess(w, l, i + 1, b);
      }
    }
  }

  lemma WakeSees(w: Swept, l: nat, i: nat, b: bv32)
    requires Shaped(w.k) && l < |w.k.lists| && i < |w.k.lists[l]| && Satisfied(w, l, i)
    ensures var r, p := SweepWake(w, l, i), FindSlot(w.pool, w.k.lists[l][i]);
      && (Has(r.bits, b) ==> Has(w.bits, b))
      && p < |w.pool| && w.pool[p].Some?
      && r.log == w.log + (if w.pool[p].value.autoClear
           then [Consumed(w.pool[p].value.group, w.k.lists[l][i], w.pool[p].value.mask, w.bits)] else [])
      && (w.pool[p].value.autoClear && IsBit(b) && Has(w.pool[p].value.mask, b) ==> !Has(r.bits, b))
  {
    hide Has, IsBit, Met, Without, Wake, UnlinkAt;
    var en := w.pool[FindSlot(w.pool, w.k.lists[l][i])].value;
    FewerHas(w.bits, en.mask, b);
    if en.autoClear && IsBit(b) && Has(en.mask, b) {
      WithoutFlag(w.bits, en.mask, b);
    }
  }

  /** The first waiter in list order whose condition holds sees all the flags; if it is an
      auto-clear waiter, no waiter behind it consumes a flag of its mask. */
  lemma FirstTakerWins(w: Swept, l: nat, i: nat, b: bv32)
    requires Shaped(w.k) && l < |w.k.lists| && i < |w.k.lists[l]| && Satisfied(w, l, i)
    requires var p := FindSlot(w.pool, w.k.lists[l][i]);
      w.pool[p].value.autoClear && IsBit(b) && Has(w.pool[p].value.mask, b)
    ensures var r, en := Sweep(w, l, i), w.pool[FindSlot(w.pool, w.k.lists[l][i])].value;
      && |w.log| < |r.log| && r.log[|w.log|] == Consumed(en.group, w.k.lists[l][i], en.mask, w.bits)
      && forall j :: |w.log| < j < |r.log| ==> r.log[j].Consumed? && !Has(r.log[j].observed, b)
  {
    hide SweepWake, Has, IsBit, Shaped, Met;
    WakeSees(w, l, i, b);
    LaterSeeLess(SweepWake(w, l, i), l, i, b);
  }

  // ---- What is left of the flags ----

  /** From entry `n` on, an auto-clear waiter took flag `b`. */
  ghost predicate TakenSince(log: seq<Note>, n: nat, b: bv32) {
    exists j :: n <= j < |log| && log[j].Consumed? && Has(log[j].mask, b)
  }

  lemma TakenFirst(w: seq<Note>, u: seq<Note>, r: seq<Note>, x: Note, b: bv32)
    requires u == w + [x] && u <= r
    ensures TakenSince(r, |w|, b) <==> (x.Consumed? && Has(x.mask, b)) || TakenSince(r, |u|, b)
  {
    assert r[|w|] == u[|w|] == x;
  }

  /** A single turn: every flag stays, unless the woken waiter takes it. */
  lemma WakeTakes(w: Swept, l: nat, i: nat, b: bv32)
    requires Shaped(w.k) && l < |w.k.lists| && i < |w.k.lists[l]| && Satisfied(w, l, i) && IsBit(b)
    ensures var r := SweepWake(w, l, i);
      && w.log <= r.log && |r.log| <= |w.log| + 1
      && (|r.log| > |w.log| ==> r.log[|w.log|].Consumed?)
      && (Has(r.bits, b) <==> Has(w.bits, b) && !(|r.log| > |w.log| && Has(r.log[|w.log|].mask, b)))
  {
    hide Has, IsBit, Met, Without, Wake, UnlinkAt;
    var en := w.pool[FindSlot(w.pool, w.k.lists[l][i])].value;
    WithoutFlags(w.bits, en.mask, b);
  }

  /** A sweep takes away the flags that auto-clear waiters took in it, and no others. */
  lemma {:induction false} SweepTakes(w: Swept, l: nat, i: nat, b: bv32)
    requires Shaped(w.k) && l < |w.k.lists| && IsBit(b)
    ensures var r := Sweep(w, l, i);
      w.log <= r.log && (Has(r.bits, b) <==> Has(w.bits, b) && !TakenSince(r.log, |w.log|, b))
    decreases |w.k.lists[l]| - i
  {
    hide SweepWake, Satisfied, Has, IsBit, Shaped;
    if i < |w.k.lists[l]| {
      if Satisfied(w, l, i) {
        var u := SweepWake(w, l, i);
        WakeTakes(w, l, i, b);
        SweepTakes(u, l, i, b);
        if |u.log| > |w.log| {
          TakenFirst(w.log, u.log, Sweep(w, l, i).log, u.log[|w.log|], b);
        }
      } else {
        SweepTakes(w, l, i + 1, b);
      }
    }
  }
}
