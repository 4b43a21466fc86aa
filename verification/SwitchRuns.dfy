/** Context switches are lossless: over any run of switches between tasks whose stacks do not
    overlap, a task that is resumed finds exactly the context it was switched out with. */
module SwitchRuns {
  import opened Selection
  import opened ContextSwitch

  /** The stack of task `t` is the words from `bottom[t]` up to `top[t]`. */
  datatype Layout = Layout(bottom: seq<nat>, top: seq<nat>)

  ghost predicate Disjoint(l: Layout) {
    && |l.bottom| == |l.top|
    && (forall t :: 0 <= t < |l.top| ==> l.bottom[t] + CORE + HIGH + BASIC < l.top[t])
    && forall t, u :: 0 <= t < |l.top| && 0 <= u < |l.top| && t != u ==>
         l.top[t] <= l.bottom[u] || l.top[u] <= l.bottom[t]
  }

  ghost predicate Fits(m: Machine, l: Layout) {
    && Sized(m) && Disjoint(l) && |l.top| == |m.sp|
    && forall t :: 0 <= t < |l.top| ==> l.top[t] <= |m.mem|
  }

  /** What a task owns when PendSV begins: r4-r11 with EXC_RETURN, s16-s31, PSP, and its stack
      from PSP up. */
  datatype Context = Context(regs: seq<Word>, fp: seq<Word>, psp: nat, stack: seq<Word>)

  ghost function Snapshot(m: Machine, l: Layout, t: nat): Context
    requires Fits(m, l) && t < |l.top| && m.psp <= l.top[t]
  {
    Context(m.regs, m.fp, m.psp, m.mem[m.psp..l.top[t]])
  }

  /** The saved stack pointer of `t` leads to context `x`. */
  ghost predicate Holds(m: Machine, l: Layout, t: nat, x: Context)
    requires Fits(m, l) && t < |l.top|
  {
    var a := m.sp[t];
    && |x.regs| == CORE && |x.fp| == HIGH
    && l.bottom[t] + CORE + HIGH <= x.psp == a + (if x.regs[8] & 0x10 == 0 then 25 else 9) && x.psp <= l.top[t]
    && m.mem[a..a + CORE] == x.regs
    && (x.regs[8] & 0x10 == 0 ==> m.mem[a + CORE..a + CORE + HIGH] == x.fp)
    && m.mem[x.psp..l.top[t]] == x.stack
  }

  /** Task `t` runs with context `x`; s16-s31 only matter if EXC_RETURN bit 4 is clear. */
  ghost predicate RunsWith(m: Machine, l: Layout, t: nat, x: Context)
    requires Fits(m, l) && t < |l.top|
  {
    && m.current == Some(t)
    && m.regs == x.regs && m.psp == x.psp <= l.top[t]
    && (|m.regs| == CORE && m.regs[8] & 0x10 == 0 ==> m.fp == x.fp)
    && m.mem[m.psp..l.top[t]] == x.stack
  }

  /** Every task but the running one has a saved context, and the running one has room. */
  ghost predicate Safe(m: Machine, l: Layout)
  {
    && Fits(m, l)
    && (forall t :: 0 <= t < |l.top| && m.current != Some(t) ==> exists x :: Holds(m, l, t, x))
    && (m.current.Some? ==> l.bottom[m.current.value] + CORE + HIGH <= m.psp <= l.top[m.current.value])
  }

  // ---- One switch ----

  lemma SaveHolds(m: Machine, l: Layout)
    requires Safe(m, l) && m.current.Some?
    ensures CanSave(m) && Fits(Save(m), l)
    ensures Holds(Save(m), l, m.current.value, Snapshot(m, l, m.current.value))
  {
    var r, c := Save(m), m.current.value;
    var x := Snapshot(m, l, c);
    var a := r.sp[c];
    assert r.mem[a..a + CORE] == x.regs;
    if UsesFpu(x.regs[8]) {
      var mid := Push(m.mem, m.psp, m.fp);
      assert r.mem[a + CORE..m.psp] == mid[a + CORE..m.psp];
    }
    assert r.mem[x.psp..l.top[c]] == x.stack;
  }

  /** Saving one task leaves every other stack as it was. */
  lemma SaveFrames(m: Machine, l: Layout, t: nat)
    requires Safe(m, l) && t < |l.top| && m.current != Some(t)
    ensures CanSave(m) && Fits(Save(m), l)
    ensures Save(m).sp[t] == m.sp[t] && Save(m).mem[l.bottom[t]..l.top[t]] == m.mem[l.bottom[t]..l.top[t]]
  {
  }

  /** Part of a stack that is the same in both memories. */
  lemma SamePart(s: seq<Word>, r: seq<Word>, b: nat, e: nat, i: nat, j: nat)
    requires b <= i <= j <= e <= |s| && e <= |r| && r[b..e] == s[b..e]
    ensures r[i..j] == s[i..j]
  {
    Within(s, b, e, i, j);
    Within(r, b, e, i, j);
  }

  /** A context depends only on the task's own stack. */
  lemma HoldsFrame(m: Machine, r: Machine, l: Layout, t: nat, x: Context)
    requires Fits(m, l) && Fits(r, l) && t < |l.top| && Holds(m, l, t, x)
    requires r.sp[t] == m.sp[t] && r.mem[l.bottom[t]..l.top[t]] == m.mem[l.bottom[t]..l.top[t]]
    ensures Holds(r, l, t, x)
  {
    var b, e, a := l.bottom[t], l.top[t], m.sp[t];
    SamePart(m.mem, r.mem, b, e, a, a + CORE);
    SamePart(m.mem, r.mem, b, e, x.psp, e);
    if x.regs[8] & 0x10 == 0 {
      SamePart(m.mem, r.mem, b, e, a + CORE, a + CORE + HIGH);
    }
  }

  lemma Within(s: seq<Word>, b: nat, e: nat, i: nat, j: nat)
    requires b <= i <= j <= e <= |s|
    ensures s[i..j] == s[b..e][i - b..j - b]
  {
    assert forall k :: 0 <= k < j - i ==> s[i..j][k] == s[b..e][i - b..j - b][k];
  }

  lemma LoadResumes(m: Machine, l: Layout, t: nat, x: Context)
    requires Fits(m, l) && t < |l.top| && Holds(m, l, t, x)
    ensures CanLoad(m, t) && Fits(Load(m, t), l)
    ensures RunsWith(Load(m, t).(current := Some(t)), l, t, x)
  {
    assert m.mem[m.sp[t]..m.sp[t] + CORE][8] == m.mem[m.sp[t] + 8];
  }

  // ---- Runs ----

  /** What happens between and at switches. `Execute` is the running task at work until its
      next exception entry: it may change its registers, its stack and any memory outside the
      other stacks, but must leave room for PendSV. */
  datatype Event =
    | Execute(mem: seq<Word>, regs: seq<Word>, fp: seq<Word>, psp: nat)
    | Choose(task: nat)
    | Switch

  ghost predicate Enabled(m: Machine, l: Layout, e: Event)
    requires Fits(m, l)
  {
    match e
    case Execute(mem, regs, fp, psp) =>
      && m.current.Some?
      && |mem| == |m.mem| && |regs| == CORE && |fp| == HIGH
      && l.bottom[m.current.value] + CORE + HIGH <= psp <= l.top[m.current.value]
      && forall t :: 0 <= t < |l.top| && t != m.current.value ==>
           mem[l.bottom[t]..l.top[t]] == m.mem[l.bottom[t]..l.top[t]]
    case Choose(task) => task < |m.sp|
    case Switch => true
  }

  ghost function After(m: Machine, l: Layout, e: Event): Machine
    requires Safe(m, l) && Enabled(m, l, e)
  {
    SafeSwitch(m, l);
    match e
    case Execute(mem, regs, fp, psp) => m.(mem := mem, regs := regs, fp := fp, psp := psp)
    case Choose(task) => m.(next := task)
    case Switch => PendSv(m)
  }

  /** What task `t` must find when it is next switched in. */
  ghost predicate Owed(m: Machine, l: Layout, t: nat, x: Context)
    requires Safe(m, l) && t < |l.top|
  {
    if m.current == Some(t) then x == Snapshot(m, l, t) else Holds(m, l, t, x)
  }

  lemma OwedSome(m: Machine, l: Layout, t: nat) returns (x: Context)
    requires Safe(m, l) && t < |l.top|
    ensures Owed(m, l, t, x)
  {
    if m.current == Some(t) {
      x := Snapshot(m, l, t);
    } else {
      x :| Holds(m, l, t, x);
    }
  }

  /** A context of a task that is not switched in survives the switch. */
  lemma SaveKeeps(m: Machine, l: Layout, t: nat, x: Context)
    requires Safe(m, l) && t < |l.top|
    requires Owed(m, l, t, x)
    ensures CanSave(m) && Fits(Save(m), l) && Holds(Save(m), l, t, x)
  {
    hide Holds, Save;
    SavedFits(m, l);
    if m.current == Some(t) {
      SaveHolds(m, l);
    } else {
      SaveFrames(m, l, t);
      HoldsFrame(m, Save(m), l, t, x);
    }
  }

  lemma SavedFits(m: Machine, l: Layout)
    requires Safe(m, l)
    ensures CanSave(m) && Fits(Save(m), l)
  {
  }

  /** Every safe state can switch. */
  lemma SafeSwitch(m: Machine, l: Layout)
    requires Safe(m, l)
    ensures CanSave(m) && Fits(Save(m), l) && CanLoad(Save(m), m.next)
  {
    SavedFits(m, l);
    var x := OwedSome(m, l, m.next);
    SaveKeeps(m, l, m.next, x);
    LoadResumes(Save(m), l, m.next, x);
  }

  /** The switch to `t` gives it the context it is owed. */
  lemma SwitchResumes(m: Machine, l: Layout, x: Context)
    requires Safe(m, l)
    requires Owed(m, l, m.next, x)
    ensures CanSave(m) && CanLoad(Save(m), m.next) && Fits(PendSv(m), l)
    ensures RunsWith(PendSv(m), l, m.next, x)
    ensures PendSv(m).regs == x.regs && |x.regs| == CORE && (x.regs[8] & 0x10 == 0 ==> PendSv(m).fp == x.fp)
  {
    hide Holds, Save, RunsWith;
    SafeSwitch(m, l);
    SaveKeeps(m, l, m.next, x);
    LoadResumes(Save(m), l, m.next, x);
    LoadCommutes(Save(m), m.next);
    Resumed(PendSv(m), l, m.next, x);
  }

  lemma Resumed(m: Machine, l: Layout, t: nat, x: Context)
    requires Fits(m, l) && t < |l.top| && RunsWith(m, l, t, x)
    ensures m.regs == x.regs && m.psp == x.psp <= l.top[t] <= |m.mem| && m.mem[m.psp..l.top[t]] == x.stack
    ensures |x.regs| == CORE && (x.regs[8] & 0x10 == 0 ==> m.fp == x.fp)
  {
  }

  lemma LoadCommutes(m: Machine, t: nat)
    requires Sized(m) && CanLoad(m, t)
    ensures Load(m.(current := Some(t)), t) == Load(m, t).(current := Some(t))
  {
  }

  /** The tasks that stay out keep the context they are owed. */
  lemma SwitchKeeps(m: Machine, l: Layout, t: nat, x: Context)
    requires Safe(m, l) && t < |l.top| && t != m.next
    requires Owed(m, l, t, x)
    ensures CanSave(m) && CanLoad(Save(m), m.next) && Fits(PendSv(m), l) && Holds(PendSv(m), l, t, x)
  {
    hide Save;
    SafeSwitch(m, l);
    SaveKeeps(m, l, t, x);
  }

  /** What a task is owed after an event. */
  lemma EventKeeps(m: Machine, l: Layout, e: Event, t: nat, x: Context)
    requires Safe(m, l) && Enabled(m, l, e) && t < |l.top| && m.current != Some(t) && Holds(m, l, t, x)
    requires e.Switch? ==> m.next != t
    ensures Fits(After(m, l, e), l) && Holds(After(m, l, e), l, t, x)
  {
    match e
    case Execute(_, _, _, _) =>
      hide Holds;
      HoldsFrame(m, After(m, l, e), l, t, x);
    case Choose(_) =>
    case Switch =>
      hide Holds;
      SwitchKeeps(m, l, t, x);
  }

  /** Every event leads to a safe state. */
  lemma EventSafe(m: Machine, l: Layout, e: Event)
    requires Safe(m, l) && Enabled(m, l, e)
    ensures Safe(After(m, l, e), l)
  {
    hide Holds;
    var r := After(m, l, e);
    if e.Switch? {
      var x := OwedSome(m, l, m.next);
      SwitchResumes(m, l, x);
      RoomKept(m, l, x);
      assert RunsWith(r, l, m.next, x);
    }
    forall t | 0 <= t < |l.top| && r.current != Some(t) ensures exists x :: Holds(r, l, t, x) {
      if e.Switch? {
        var x := OwedSome(m, l, t);
        SwitchKeeps(m, l, t, x);
      } else {
        var x :| Holds(m, l, t, x);
        EventKeeps(m, l, e, t, x);
      }
    }
  }

  lemma RoomKept(m: Machine, l: Layout, x: Context)
    requires Safe(m, l)
    requires Owed(m, l, m.next, x)
    ensures l.bottom[m.next] + CORE + HIGH <= x.psp
  {
  }

  /** The machines a run passes through. */
  ghost predicate IsRun(tr: seq<Machine>, l: Layout, es: seq<Event>) {
    && |tr| == |es| + 1 && Safe(tr[0], l)
    && forall i :: 0 <= i < |es| ==>
         Safe(tr[i], l) ==> Enabled(tr[i], l, es[i]) && tr[i + 1] == After(tr[i], l, es[i])
  }

  lemma {:induction false} RunSafe(tr: seq<Machine>, l: Layout, es: seq<Event>, i: nat)
    requires IsRun(tr, l, es) && i < |tr|
    ensures Safe(tr[i], l)
  {
    if i > 0 {
      RunSafe(tr, l, es, i - 1);
      var n := i - 1;
      assert tr[n + 1] == After(tr[n], l, es[n]);
      EventSafe(tr[n], l, es[n]);
    }
  }

  /** While task `t` is out, what it is owed does not change. */
  lemma {:induction false} StaysOwed(tr: seq<Machine>, l: Layout, es: seq<Event>, i: nat, j: nat, t: nat, x: Context)
    requires IsRun(tr, l, es) && i <= j < |tr| && t < |l.top|
    requires forall k :: i <= k <= j ==> tr[k].current != Some(t)
    requires Fits(tr[i], l) && Holds(tr[i], l, t, x)
    ensures Fits(tr[j], l) && Holds(tr[j], l, t, x)
  {
    hide Holds;
    RunSafe(tr, l, es, j);
    if i < j {
      StaysOwed(tr, l, es, i, j - 1, t, x);
      RunSafe(tr, l, es, j - 1);
      EventKeeps(tr[j - 1], l, es[j - 1], t, x);
    }
  }

  /** Switched out by event `i` and next switched in by event `j`, with any events between, a
      task finds its exact context. */
  lemma SwitchesAreLossless(tr: seq<Machine>, l: Layout, es: seq<Event>, i: nat, j: nat, t: nat)
    requires IsRun(tr, l, es) && i <= j < |es| && es[i].Switch? && es[j].Switch? && t < |l.top|
    requires tr[i].current == Some(t) && tr[j + 1].current == Some(t)
    requires forall k :: i < k <= j ==> tr[k].current != Some(t)
    ensures Safe(tr[i], l) && Safe(tr[j + 1], l)
    ensures RunsWith(tr[j + 1], l, t, Snapshot(tr[i], l, t))
    ensures tr[j + 1].regs == tr[i].regs && (tr[i].regs[8] & 0x10 == 0 ==> tr[j + 1].fp == tr[i].fp)
    ensures var a, b := tr[i].psp, l.top[t]; tr[j + 1].psp == a && tr[j + 1].mem[a..b] == tr[i].mem[a..b]
  {
    hide Holds, RunsWith;
    RunSafe(tr, l, es, i);
    RunSafe(tr, l, es, j);
    RunSafe(tr, l, es, j + 1);
    var x := Snapshot(tr[i], l, t);
    assert tr[i + 1] == After(tr[i], l, es[i]);
    if i < j {
      assert tr[i + 1].current != Some(t);
      SwitchKeeps(tr[i], l, t, x);
      StaysOwed(tr, l, es, i + 1, j, t, x);
    }
    SwitchResumes(tr[j], l, x);
    Resumed(tr[j + 1], l, t, x);
  }

  // ---- New tasks ----

  /** The stack of `t` is as `task_stack_init` left it. */
  ghost predicate Fresh(m: Machine, l: Layout, t: nat, func: Word)
    requires Fits(m, l) && t < |l.top|
  {
    var a := Align(l.top[t]);
    m.sp[t] == a - CORE - BASIC && m.mem[m.sp[t]..a] == NewFrame(func)
  }

  lemma NoFpu()
    ensures !UsesFpu(0xFFFF_FFFD)
  {
  }

  /** A new frame is a context: all registers 0, no floating point, PSP a multiple of 8 bytes
      at a hardware frame that begins execution of `func`. */
  lemma FreshHolds(m: Machine, l: Layout, t: nat, func: Word) returns (x: Context)
    requires Fits(m, l) && t < |l.top| && Fresh(m, l, t, func)
    ensures Holds(m, l, t, x)
    ensures x.regs == NewCore() && x.psp == Align(l.top[t]) - BASIC && x.psp % 2 == 0
    ensures BASIC <= |x.stack| && x.stack[..BASIC] == NewBasic(func)
  {
    var a := Align(l.top[t]);
    var f := NewFrame(func);
    x := Context(NewCore(), seq(HIGH, _ => 0), a - BASIC, m.mem[a - BASIC..l.top[t]]);
    NoFpu();
    Within(m.mem, m.sp[t], a, m.sp[t], m.sp[t] + CORE);
    Within(m.mem, m.sp[t], a, a - BASIC, a);
    assert f[..CORE] == NewCore() && f[CORE..] == NewBasic(func);
    assert x.stack[..BASIC] == m.mem[a - BASIC..a];
  }

  /** The first time a task runs, it starts from the frame that `task_stack_init` built. */
  lemma FirstRunFromFrame(tr: seq<Machine>, l: Layout, es: seq<Event>, j: nat, t: nat, func: Word)
    requires IsRun(tr, l, es) && j < |es| && es[j].Switch? && t < |l.top|
    requires Fits(tr[0], l) && Fresh(tr[0], l, t, func)
    requires forall k :: 0 <= k <= j ==> tr[k].current != Some(t)
    requires tr[j + 1].current == Some(t)
    ensures var m := tr[j + 1];
      && m.regs == [0, 0, 0, 0, 0, 0, 0, 0, 0xFFFF_FFFD]
      && m.psp == l.top[t] - l.top[t] % 2 - 8 && m.psp + 8 <= |m.mem|
      && m.mem[m.psp..m.psp + 8] == [0, 0, 0, 0, 0, 0xFFFF_FFFD, func | 1, 0x0100_0000]
  {
    hide Holds;
    var x := FreshHolds(tr[0], l, t, func);
    StaysOwed(tr, l, es, 0, j, t, x);
    RunSafe(tr, l, es, j);
    SwitchResumes(tr[j], l, x);
    FrameOnTop(tr[j + 1], l, t, x, func);
  }

  lemma FrameOnTop(m: Machine, l: Layout, t: nat, x: Context, func: Word)
    requires Fits(m, l) && t < |l.top| && RunsWith(m, l, t, x)
    requires BASIC <= |x.stack| && x.stack[..BASIC] == NewBasic(func)
    ensures m.psp + BASIC <= |m.mem| && m.mem[m.psp..m.psp + BASIC] == NewBasic(func)
  {
    assert m.mem[m.psp..m.psp + BASIC] == m.mem[m.psp..l.top[t]][..BASIC];
  }

  /** SVC gives the first task its frame; nothing is saved. */
  lemma FirstTaskStarts(m: Machine, l: Layout, t: nat, func: Word)
    requires Fits(m, l) && t < |l.top| && m.current == Some(t) && Fresh(m, l, t, func)
    ensures CanLoad(m, t) && Fits(Svc(m), l)
    ensures var r := Svc(m);
      && r.regs == [0, 0, 0, 0, 0, 0, 0, 0, 0xFFFF_FFFD]
      && r.psp == l.top[t] - l.top[t] % 2 - 8 && r.psp + 8 <= |r.mem| && r.mem == m.mem
      && r.mem[r.psp..r.psp + 8] == [0, 0, 0, 0, 0, 0xFFFF_FFFD, func | 1, 0x0100_0000]
  {
    hide Holds;
    var x := FreshHolds(m, l, t, func);
    LoadResumes(m, l, t, x);
    FrameOnTop(Svc(m), l, t, x, func);
  }
}
