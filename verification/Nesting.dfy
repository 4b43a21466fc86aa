/** A task that holds several mutexes at once. The saved priority is per mutex, so what an
    owner is left with depends on the order of waiters and releases; only the owner of a
    single mutex always gets its own priority back. */
module Nesting {
  import opened Selection
  import opened WaitQueue
  import opened Kernel
  import opened Primitives

  /** Task `v` queues behind the owner of mutex `m`; the owner unlocks `m`; it locks `m`, for the
      first time or again. */
  datatype Move = Waiter(m: nat, v: nat) | LetGo(m: nat) | Lock(m: nat)

  datatype Hold = Hold(k: State, objs: seq<Object>)

  predicate HeldBy(x: Object, o: nat) {
    x.Mutex? && x.owner == Some(o)
  }

  function Rank(h: Hold, t: nat): nat
    requires t < |h.k.tasks|
  {
    h.k.tasks[t].prio
  }

  predicate Sound(h: Hold, o: nat) {
    Bounds(h.k) && o < |h.k.tasks|
  }

  predicate May(h: Hold, o: nat, x: Move) {
    && Sound(h, o)
    && x.m < |h.objs| && h.objs[x.m].Mutex?
    && (if x.Lock? then h.objs[x.m].owner.None? else HeldBy(h.objs[x.m], o))
    && (x.Waiter? ==> x.v < |h.k.tasks|)
  }

  /** Inheritance and acquisition as in `mutex_lock`, restoration as in `mutex_unlock`. */
  function Moved(h: Hold, o: nat, x: Move): (r: Hold)
    requires May(h, o, x)
    ensures Sound(r, o) && |r.objs| == |h.objs| && |r.k.tasks| == |h.k.tasks|
  {
    match x
    case Waiter(m, v) =>
      var (k, n) := Inherit(h.k.(current := v), h.objs[m]);
      Hold(k.(current := h.k.current), h.objs[m := n])
    case LetGo(m) =>
      Hold(Restore(h.k, h.objs[m]), h.objs[m := Release(h.objs[m])])
    case Lock(m) =>
      Hold(h.k, h.objs[m := Acquire(h.k.(current := o), h.objs[m])])
  }

  /** Every move is possible when its turn comes. */
  predicate Valid(h: Hold, o: nat, moves: seq<Move>)
    decreases |moves|, 0
  {
    && Sound(h, o)
    && (moves != [] ==>
          && Valid(h, o, moves[..|moves| - 1])
          && May(Play(h, o, moves[..|moves| - 1]), o, moves[|moves| - 1]))
  }

  function Play(h: Hold, o: nat, moves: seq<Move>): (r: Hold)
    requires Valid(h, o, moves)
    ensures Sound(r, o) && |r.objs| == |h.objs| && |r.k.tasks| == |h.k.tasks|
    decreases |moves|, 1
  {
    if moves == [] then h else Moved(Play(h, o, moves[..|moves| - 1]), o, moves[|moves| - 1])
  }

  predicate Unelevated(h: Hold, o: nat) {
    forall m :: 0 <= m < |h.objs| && HeldBy(h.objs[m], o) ==> !h.objs[m].elevated
  }

  predicate HoldsNone(h: Hold, o: nat) {
    forall m :: 0 <= m < |h.objs| ==> !HeldBy(h.objs[m], o)
  }

  /** What the last released mutex that was elevated had saved. */
  function LastSaved(h: Hold, o: nat, moves: seq<Move>): Option<nat>
    requires Valid(h, o, moves)
  {
    if moves == [] then None
    else
      var b, x := Play(h, o, moves[..|moves| - 1]), moves[|moves| - 1];
      if x.LetGo? && b.objs[x.m].elevated then Some(b.objs[x.m].saved)
      else LastSaved(h, o, moves[..|moves| - 1])
  }

  /** For any set of mutexes, and waiters, releases and further locks in any order: the owner of
      none, or of mutexes that are not elevated, has what the last released elevated one had
      saved. */
  lemma {:induction false} LastReleaseDecides(h: Hold, o: nat, moves: seq<Move>)
    requires Valid(h, o, moves) && Unelevated(h, o) && Unelevated(Play(h, o, moves), o)
    ensures var r, saved := Play(h, o, moves), LastSaved(h, o, moves);
      && Rank(r, o) == (if saved.Some? then saved.value else Rank(h, o))
      && (Rank(r, o) == Rank(h, o) <==> saved.None? || saved.value == Rank(h, o))
  {
    if moves != [] {
      var before, x := Play(h, o, moves[..|moves| - 1]), moves[|moves| - 1];
      if !x.LetGo? || !before.objs[x.m].elevated {
        UnelevatedBefore(before, o, x);
        LastReleaseDecides(h, o, moves[..|moves| - 1]);
      }
    }
  }

  lemma UnelevatedBefore(h: Hold, o: nat, x: Move)
    requires May(h, o, x) && Unelevated(Moved(h, o, x), o) && (x.LetGo? ==> !h.objs[x.m].elevated)
    ensures Unelevated(h, o) && Rank(Moved(h, o, x), o) == Rank(h, o)
  {
    assert x.Waiter? ==> HeldBy(Moved(h, o, x).objs[x.m], o);
    forall m | 0 <= m < |h.objs| && HeldBy(h.objs[m], o) ensures !h.objs[m].elevated {
      var r := Moved(h, o, x);
      assert m != x.m ==> r.objs[m] == h.objs[m];
      assert !x.LetGo? && m == x.m ==> HeldBy(r.objs[m], o);
    }
  }

  // ---- First the waiters, then the releases ----

  /** The mutex of the first waiter that is better than the owner. */
  function FirstUp(h: Hold, o: nat, ws: seq<Move>): Option<nat>
    requires Valid(h, o, ws)
  {
    if ws == [] then None
    else
      var before, x := FirstUp(h, o, ws[..|ws| - 1]), ws[|ws| - 1];
      if before.None? && x.Waiter? && Rank(h, x.v) < Rank(h, o) then Some(x.m) else before
  }

  /** The last released of the mutexes that are elevated in `h`. */
  function LastUp(h: Hold, rs: seq<Move>): Option<nat>
    requires forall j :: 0 <= j < |rs| ==> rs[j].m < |h.objs| && h.objs[rs[j].m].Mutex?
  {
    if rs == [] then None
    else if h.objs[rs[|rs| - 1].m].elevated then Some(rs[|rs| - 1].m)
    else LastUp(h, rs[..|rs| - 1])
  }

  /** Mutex `f` has saved the owner's own priority `p`, and every other elevated one less. */
  predicate Marked(h: Hold, o: nat, p: nat, f: Option<nat>)
    requires Sound(h, o)
  {
    && (f.None? ==> Rank(h, o) == p && Unelevated(h, o))
    && (f.Some? ==>
          && f.value < |h.objs| && HeldBy(h.objs[f.value], o)
          && h.objs[f.value].elevated && h.objs[f.value].saved == p && Rank(h, o) < p
          && forall m :: 0 <= m < |h.objs| && m != f.value && HeldBy(h.objs[m], o) && h.objs[m].elevated
               ==> h.objs[m].saved < p)
  }

  lemma WaiterMarks(h: Hold, o: nat, x: Move, p: nat, f: Option<nat>)
    requires May(h, o, x) && x.Waiter? && Marked(h, o, p, f)
    ensures Marked(Moved(h, o, x), o, p, if f.None? && Rank(h, x.v) < p then Some(x.m) else f)
    ensures forall t :: 0 <= t < |h.k.tasks| && t != o ==> Rank(Moved(h, o, x), t) == Rank(h, t)
  {
    var r := Moved(h, o, x);
    assert forall m :: 0 <= m < |h.objs| && m != x.m ==> r.objs[m] == h.objs[m];
  }

  lemma {:induction false} WaitersMark(h: Hold, o: nat, ws: seq<Move>)
    requires Valid(h, o, ws) && Unelevated(h, o) && forall j :: 0 <= j < |ws| ==> ws[j].Waiter?
    ensures Marked(Play(h, o, ws), o, Rank(h, o), FirstUp(h, o, ws))
    ensures forall t :: 0 <= t < |h.k.tasks| && t != o ==> Rank(Play(h, o, ws), t) == Rank(h, t)
  {
    hide Moved, Unelevated, HeldBy;
    if ws != [] {
      WaitersMark(h, o, ws[..|ws| - 1]);
      WaiterMarks(Play(h, o, ws[..|ws| - 1]), o, ws[|ws| - 1], Rank(h, o), FirstUp(h, o, ws[..|ws| - 1]));
    }
  }

  lemma {:induction false} PlayConcat(h: Hold, o: nat, a: seq<Move>, b: seq<Move>)
    requires Valid(h, o, a + b)
    ensures Valid(h, o, a) && Valid(Play(h, o, a), o, b) && Play(h, o, a + b) == Play(Play(h, o, a), o, b)
    decreases |b|
  {
    if b == [] {
      assert a + b == a;
    } else {
      assert (a + b)[..|a + b| - 1] == a + b[..|b| - 1];
      PlayConcat(h, o, a, b[..|b| - 1]);
    }
  }

  predicate AllLetGo(rs: seq<Move>) {
    forall j :: 0 <= j < |rs| ==> rs[j].LetGo?
  }

  lemma LetGoMoves(h: Hold, o: nat, m: nat)
    requires May(h, o, LetGo(m))
    ensures var r, x := Moved(h, o, LetGo(m)), h.objs[m];
      && Rank(r, o) == (if x.elevated then x.saved else Rank(h, o))
      && r.objs == h.objs[m := Release(x)] && !HeldBy(r.objs[m], o)
  {
  }

  /** Releases take the priority back to what the last elevated mutex had saved, and leave the
      mutexes still held as they were. */
  lemma {:induction false} ReleasesRestore(h: Hold, o: nat, rs: seq<Move>)
    requires Valid(h, o, rs) && AllLetGo(rs)
    ensures forall j :: 0 <= j < |rs| ==> rs[j].m < |h.objs| && h.objs[rs[j].m].Mutex? && HeldBy(h.objs[rs[j].m], o)
    ensures var r, up := Play(h, o, rs), LastUp(h, rs);
      && (up.Some? ==> up.value < |h.objs| && HeldBy(h.objs[up.value], o) && h.objs[up.value].elevated)
      && Rank(r, o) == (if up.Some? then h.objs[up.value].saved else Rank(h, o))
    ensures forall m :: 0 <= m < |h.objs| && LetGo(m) !in rs ==> Play(h, o, rs).objs[m] == h.objs[m]
    ensures forall m :: 0 <= m < |h.objs| && LetGo(m) in rs ==> !HeldBy(Play(h, o, rs).objs[m], o)
  {
    hide Moved, Valid, Play;
    if rs == [] {
      ValidIsSound(h, o, rs);
      PlayNone(h, o);
    } else {
      var n := |rs| - 1;
      PlayLast(h, o, rs);
      ReleasesRestore(h, o, rs[..n]);
      LetGoMoves(Play(h, o, rs[..n]), o, rs[n].m);
      assert rs == rs[..n] + [rs[n]];
      assert LetGo(rs[n].m) !in rs[..n];
    }
  }

  lemma PlayLast(h: Hold, o: nat, ms: seq<Move>)
    requires Valid(h, o, ms) && ms != []
    ensures var before, x := ms[..|ms| - 1], ms[|ms| - 1];
      Valid(h, o, before) && May(Play(h, o, before), o, x) && Play(h, o, ms) == Moved(Play(h, o, before), o, x)
  {
    hide Moved, May;
  }

  /** When all waiters come before the first release: the owner ends with its own priority just
      when the mutex elevated first is the last elevated one to be released. */
  lemma OrderRule(h: Hold, o: nat, ws: seq<Move>, rs: seq<Move>)
    requires Valid(h, o, ws + rs) && (forall j :: 0 <= j < |ws| ==> ws[j].Waiter?) && AllLetGo(rs)
    requires Unelevated(h, o) && Unelevated(Play(h, o, ws + rs), o)
    ensures Valid(h, o, ws)
    ensures forall j :: 0 <= j < |rs| ==> rs[j].m < |h.objs| && Play(h, o, ws).objs[rs[j].m].Mutex?
    ensures Rank(Play(h, o, ws + rs), o) == Rank(h, o) <==> LastUp(Play(h, o, ws), rs) == FirstUp(h, o, ws)
  {
    hide Moved, LastUp, FirstUp;
    PlayConcat(h, o, ws, rs);
    WaitersMark(h, o, ws);
    var g := Play(h, o, ws);
    ReleasesRestore(g, o, rs);
    var f, r := FirstUp(h, o, ws), Play(g, o, rs);
    if f.Some? && LastUp(g, rs).None? {
      assert Rank(r, o) == Rank(g, o);
    }
  }

  // ---- The rule a caller can follow ----

  /** The order in which the moves release mutexes. */
  function Releases(moves: seq<Move>): seq<nat> {
    if moves == [] then []
    else
      var x := moves[|moves| - 1];
      Releases(moves[..|moves| - 1]) + if x.LetGo? then [x.m] else []
  }

  /** The owner holds the mutexes of `order` and no others, none of them elevated. */
  ghost predicate Owns(h: Hold, o: nat, order: seq<nat>) {
    && Sound(h, o) && Unelevated(h, o) && Distinct(order)
    && forall m: nat :: m in order <==> m < |h.objs| && HeldBy(h.objs[m], o)
  }

  predicate NoLock(moves: seq<Move>) {
    forall j :: 0 <= j < |moves| ==> !moves[j].Lock?
  }

  /** Whoever queues meanwhile, releasing in this order gives the owner its priority back. */
  ghost predicate AlwaysRestores(h: Hold, o: nat, order: seq<nat>) {
    && Sound(h, o)
    && forall moves ::
         Valid(h, o, moves) && NoLock(moves) && Releases(moves) == order && HoldsNone(Play(h, o, moves), o) ==>
         Rank(Play(h, o, moves), o) == Rank(h, o)
  }

  /** The only mutex, while it is held, has saved the owner's own priority. */
  lemma {:induction false} OneRestores(h: Hold, o: nat, m: nat, moves: seq<Move>)
    requires Owns(h, o, [m]) && Valid(h, o, moves) && NoLock(moves)
    ensures var r := Play(h, o, moves);
      && m < |r.objs| && (forall n :: 0 <= n < |r.objs| && n != m ==> !HeldBy(r.objs[n], o))
      && if HeldBy(r.objs[m], o) && r.objs[m].elevated then r.objs[m].saved == Rank(h, o) else Rank(r, o) == Rank(h, o)
  {
    assert m in [m];
    if moves != [] {
      OneRestores(h, o, m, moves[..|moves| - 1]);
      var b, x := Play(h, o, moves[..|moves| - 1]), moves[|moves| - 1];
      assert x.m == m;
      assert forall n :: 0 <= n < |b.objs| && n != m ==> Moved(b, o, x).objs[n] == b.objs[n];
    } else {
      assert forall n: nat :: n < |h.objs| && HeldBy(h.objs[n], o) ==> n in [m];
    }
  }

  function LetGoes(order: seq<nat>): (rs: seq<Move>)
    ensures |rs| == |order| && forall j :: 0 <= j < |rs| ==> rs[j] == LetGo(order[j])
  {
    seq(|order|, j requires 0 <= j < |order| => LetGo(order[j]))
  }

  /** What is held can be released in any order. */
  lemma {:induction false} ReleasesValid(h: Hold, o: nat, order: seq<nat>)
    requires Sound(h, o) && Distinct(order)
    requires forall j :: 0 <= j < |order| ==> order[j] < |h.objs| && HeldBy(h.objs[order[j]], o)
    ensures Valid(h, o, LetGoes(order)) && AllLetGo(LetGoes(order))
  {
    hide Moved, LastUp;
    if order != [] {
      var n := |order| - 1;
      ReleasesValid(h, o, order[..n]);
      var rs := LetGoes(order[..n]);
      assert LetGoes(order)[..n] == rs;
      assert LetGo(order[n]) !in rs;
      ReleasesRestore(h, o, rs);
      assert Play(h, o, rs).objs[order[n]] == h.objs[order[n]];
    }
  }

  lemma ReleasesNext(moves: seq<Move>, x: Move)
    ensures Releases(moves + [x]) == Releases(moves) + if x.LetGo? then [x.m] else []
  {
    assert (moves + [x])[..|moves|] == moves;
  }

  lemma {:induction false} NoReleases(ws: seq<Move>)
    requires forall j :: 0 <= j < |ws| ==> ws[j].Waiter?
    ensures Releases(ws) == []
  {
    if ws != [] {
      NoReleases(ws[..|ws| - 1]);
    }
  }

  lemma {:induction false} ReleasesAre(ws: seq<Move>, order: seq<nat>)
    requires forall j :: 0 <= j < |ws| ==> ws[j].Waiter?
    ensures Releases(ws + LetGoes(order)) == order
    decreases |order|
  {
    hide Releases;
    if order == [] {
      NoReleases(ws);
      assert ws + LetGoes(order) == ws;
    } else {
      var n := |order| - 1;
      ReleasesAre(ws, order[..n]);
      ReleasesNext(ws + LetGoes(order[..n]), LetGo(order[n]));
      assert ws + LetGoes(order) == (ws + LetGoes(order[..n])) + [LetGo(order[n])];
      assert order == order[..n] + [order[n]];
    }
  }

  lemma {:induction false} ValidConcat(h: Hold, o: nat, a: seq<Move>, b: seq<Move>)
    requires Valid(h, o, a) && Valid(Play(h, o, a), o, b)
    ensures Valid(h, o, a + b)
    decreases |b|
  {
    if b == [] {
      assert a + b == a;
    } else {
      assert (a + b)[..|a + b| - 1] == a + b[..|b| - 1];
      ValidConcat(h, o, a, b[..|b| - 1]);
      PlayConcat(h, o, a, b[..|b| - 1]);
    }
  }

  /** Of two mutexes or more, let a waiter come for the last but one to be released, and then a
      better one for the last: the owner keeps the first waiter's priority. */
  lemma OrderLeaks(h: Hold, o: nat, order: seq<nat>, v: nat, w: nat) returns (moves: seq<Move>)
    requires Owns(h, o, order) && |order| >= 2 && v < |h.k.tasks| && w < |h.k.tasks|
    requires Rank(h, w) < Rank(h, v) < Rank(h, o)
    ensures Valid(h, o, moves) && NoLock(moves) && Releases(moves) == order && HoldsNone(Play(h, o, moves), o)
    ensures Rank(Play(h, o, moves), o) == Rank(h, v)
  {
    hide Moved, HeldBy, Valid, Play, Releases;
    var a, b := order[|order| - 2], order[|order| - 1];
    assert a in order && b in order;
    var ws, rs := [Waiter(a, v), Waiter(b, w)], LetGoes(order);
    moves := ws + rs;
    var g := TwoWaiters(h, o, a, b, v, w);
    forall j | 0 <= j < |order| ensures order[j] < |g.objs| && HeldBy(g.objs[order[j]], o) {
      assert order[j] in order;
    }
    ReleasesValid(g, o, order);
    ReleasesRestore(g, o, rs);
    ValidConcat(h, o, ws, rs);
    PlayConcat(h, o, ws, rs);
    ReleasesAre(ws, order);
    AllReleased(h, g, o, order);
  }

  lemma AllReleased(h: Hold, g: Hold, o: nat, order: seq<nat>)
    requires Owns(h, o, order) && |g.objs| == |h.objs| && Valid(g, o, LetGoes(order))
    requires forall m :: 0 <= m < |h.objs| ==> (HeldBy(g.objs[m], o) <==> HeldBy(h.objs[m], o))
    ensures HoldsNone(Play(g, o, LetGoes(order)), o)
  {
    hide Moved, HeldBy, LastUp;
    var rs := LetGoes(order);
    ReleasesRestore(g, o, rs);
    forall m | 0 <= m < |h.objs| ensures !HeldBy(Play(g, o, rs).objs[m], o) {
      if m in order {
        var j :| 0 <= j < |order| && order[j] == m;
        assert rs[j] == LetGo(m);
      }
    }
  }

  /** A better waiter for a mutex that is not elevated yet. */
  lemma BetterWaits(h: Hold, o: nat, m: nat, v: nat) returns (r: Hold)
    requires Sound(h, o) && m < |h.objs| && HeldBy(h.objs[m], o) && !h.objs[m].elevated
    requires v < |h.k.tasks| && Rank(h, v) < Rank(h, o)
    ensures May(h, o, Waiter(m, v)) && r == Moved(h, o, Waiter(m, v))
    ensures HeldBy(r.objs[m], o) && r.objs[m].elevated && r.objs[m].saved == Rank(h, o)
    ensures forall x :: 0 <= x < |h.objs| && x != m ==> r.objs[x] == h.objs[x]
    ensures Rank(r, o) == Rank(h, v) && forall t :: 0 <= t < |h.k.tasks| && t != o ==> Rank(r, t) == Rank(h, t)
  {
    r := Moved(h, o, Waiter(m, v));
  }

  lemma PlayNone(h: Hold, o: nat)
    requires Sound(h, o)
    ensures Valid(h, o, []) && Play(h, o, []) == h
  {
  }

  lemma PlayNext(h: Hold, o: nat, ms: seq<Move>, x: Move)
    requires Valid(h, o, ms) && May(Play(h, o, ms), o, x)
    ensures Valid(h, o, ms + [x]) && Play(h, o, ms + [x]) == Moved(Play(h, o, ms), o, x)
  {
    hide Moved, May;
    var all := ms + [x];
    assert all[..|all| - 1] == ms && all[|all| - 1] == x;
    ValidIsSound(h, o, ms);
    assert Valid(h, o, all);
  }

  lemma ValidIsSound(h: Hold, o: nat, ms: seq<Move>)
    requires Valid(h, o, ms)
    ensures Sound(h, o)
  {
  }

  lemma PlayTwo(h: Hold, o: nat, x: Move, y: Move)
    requires May(h, o, x) && May(Moved(h, o, x), o, y)
    ensures Valid(h, o, [x, y]) && Play(h, o, [x, y]) == Moved(Moved(h, o, x), o, y)
  {
    hide Moved, Valid, Play;
    PlayNone(h, o);
    PlayNext(h, o, [], x);
    assert [] + [x] == [x] && [x] + [y] == [x, y];
    PlayNext(h, o, [x], y);
  }

  lemma TwoWaiters(h: Hold, o: nat, a: nat, b: nat, v: nat, w: nat) returns (g: Hold)
    requires Sound(h, o) && Unelevated(h, o) && a != b && v < |h.k.tasks| && w < |h.k.tasks|
    requires a < |h.objs| && b < |h.objs| && HeldBy(h.objs[a], o) && HeldBy(h.objs[b], o)
    requires Rank(h, w) < Rank(h, v) < Rank(h, o)
    ensures var ws := [Waiter(a, v), Waiter(b, w)]; Valid(h, o, ws) && g == Play(h, o, ws)
    ensures g.objs[b].Mutex? && g.objs[b].elevated && g.objs[b].saved == Rank(h, v)
    ensures forall m :: 0 <= m < |h.objs| ==> (HeldBy(g.objs[m], o) <==> HeldBy(h.objs[m], o))
  {
    hide Moved, May, Play, Valid;
    var r := BetterWaits(h, o, a, v);
    g := BetterWaits(r, o, b, w);
    PlayTwo(h, o, Waiter(a, v), Waiter(b, w));
  }

  /** Not to nest mutexes is the exact rule: releasing in a given order gives the owner its own
      priority back, whoever queues meanwhile, just when it is the order of one mutex. */
  lemma OneMutexIsExact(h: Hold, o: nat, order: seq<nat>, v: nat, w: nat)
    requires Owns(h, o, order) && v < |h.k.tasks| && w < |h.k.tasks|
    requires Rank(h, w) < Rank(h, v) < Rank(h, o)
    ensures AlwaysRestores(h, o, order) <==> |order| <= 1
  {
    if |order| >= 2 {
      var moves := OrderLeaks(h, o, order, v, w);
    } else {
      forall moves | Valid(h, o, moves) && NoLock(moves) && Releases(moves) == order && HoldsNone(Play(h, o, moves), o)
        ensures Rank(Play(h, o, moves), o) == Rank(h, o)
      {
        if |order| == 1 {
          OneRestores(h, o, order[0], moves);
        } else {
          NoneHeld(h, o, moves);
        }
      }
    }
  }

  lemma NoneHeld(h: Hold, o: nat, moves: seq<Move>)
    requires Owns(h, o, []) && Valid(h, o, moves) && NoLock(moves)
    ensures moves == []
    decreases |moves|
  {
    if moves != [] {
      NoneHeld(h, o, moves[..|moves| - 1]);
    }
  }
}
