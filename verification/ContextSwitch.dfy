/** The context switch of the ARMv7-M ports: the frame a new task starts from, SVC, and
    PendSV with its optional floating-point part. Memory is a sequence of words, and an
    address is the number of a word. */
module ContextSwitch {
  import opened Selection

  type Word = bv32

  /** EXC_RETURN bit 4 is clear: the task has a floating-point context. */
  predicate UsesFpu(excReturn: Word) {
    excReturn & 0x10 == 0
  }

  /** r4-r11 and EXC_RETURN. */
  const CORE: nat := 9
  /** s16-s31. */
  const HIGH: nat := 16
  /** What the processor stacks without floating point: r0-r3, r12, LR, PC, xPSR. */
  const BASIC: nat := 8

  /** `regs` holds r4-r11 and LR as PendSV finds it, `fp` s16-s31, `sp` the saved stack
      pointers of all tasks. */
  datatype Machine = Machine(
    mem: seq<Word>,
    regs: seq<Word>,
    fp: seq<Word>,
    psp: nat,
    sp: seq<nat>,
    current: Option<nat>,
    next: nat)

  predicate Sized(m: Machine) {
    && |m.regs| == CORE && |m.fp| == HIGH
    && m.next < |m.sp|
    && (m.current.Some? ==> m.current.value < |m.sp|)
  }

  /** The words pushed below `at`, first word lowest. */
  function Push(mem: seq<Word>, at: nat, ws: seq<Word>): (r: seq<Word>)
    requires |ws| <= at <= |mem|
    ensures |r| == |mem|
    ensures r[at - |ws|..at] == ws
    ensures forall i :: 0 <= i < |mem| && !(at - |ws| <= i < at) ==> r[i] == mem[i]
  {
    mem[..at - |ws|] + ws + mem[at..]
  }

  /** How many words PendSV needs for a context. */
  function SavedSize(excReturn: Word): nat {
    if UsesFpu(excReturn) then CORE + HIGH else CORE
  }

  predicate CanSave(m: Machine) {
    Sized(m) && (m.current.Some? ==> CORE + HIGH <= m.psp <= |m.mem|)
  }

  /** First half of PendSV: the running task's context goes onto its stack. */
  function Save(m: Machine): (r: Machine)
    requires CanSave(m)
    ensures Sized(r) && |r.mem| == |m.mem| && r.next == m.next && r.current == m.current && |r.sp| == |m.sp|
  {
    if m.current.None? then m
    else if UsesFpu(m.regs[8]) then
      m.(mem := Push(Push(m.mem, m.psp, m.fp), m.psp - HIGH, m.regs),
         sp := m.sp[m.current.value := m.psp - HIGH - CORE])
    else
      m.(mem := Push(m.mem, m.psp, m.regs),
         sp := m.sp[m.current.value := m.psp - CORE])
  }

  predicate CanLoad(m: Machine, t: nat) {
    t < |m.sp| && m.sp[t] + CORE <= |m.mem| && m.sp[t] + SavedSize(m.mem[m.sp[t] + 8]) <= |m.mem|
  }

  /** The context of task `t` comes off its stack. */
  function Load(m: Machine, t: nat): (r: Machine)
    requires Sized(m) && CanLoad(m, t)
    ensures Sized(r) && r.mem == m.mem && r.sp == m.sp
  {
    var a := m.sp[t];
    var regs := m.mem[a..a + CORE];
    if UsesFpu(regs[8])
    then m.(regs := regs, fp := m.mem[a + CORE..a + CORE + HIGH], psp := a + CORE + HIGH)
    else m.(regs := regs, psp := a + CORE)
  }

  /** `PendSV_Handler`. */
  function PendSv(m: Machine): (r: Machine)
    requires CanSave(m) && CanLoad(Save(m), m.next)
    ensures Sized(r) && |r.mem| == |m.mem| && |r.sp| == |m.sp| && r.current == Some(m.next) && r.next == m.next
  {
    Load(Save(m).(current := Some(m.next)), m.next)
  }

  /** What a save leaves on the stack, by EXC_RETURN bit 4. */
  lemma Saved(m: Machine)
    requires CanSave(m)
    ensures var r := Save(m);
      && (m.current.None? ==> r == m)
      && (m.current.Some? ==> var c, fpu := m.current.value, m.regs[8] & 0x10 == 0;
            && r.sp[c] == m.psp - (if fpu then 25 else 9)
            && r.mem[r.sp[c]..r.sp[c] + 9] == m.regs
            && (fpu ==> r.mem[r.sp[c] + 9..r.sp[c] + 25] == m.fp))
      && r.regs == m.regs && r.fp == m.fp
  {
    if m.current.Some? && UsesFpu(m.regs[8]) {
      var mid := Push(m.mem, m.psp, m.fp);
      assert Save(m).mem[m.psp - HIGH..m.psp] == mid[m.psp - HIGH..m.psp];
    }
  }

  /** What a load takes off the stack, by EXC_RETURN bit 4. */
  lemma Loaded(m: Machine, t: nat)
    requires Sized(m) && CanLoad(m, t)
    ensures var r, a := Load(m, t), m.sp[t];
      && r.regs == m.mem[a..a + 9]
      && if r.regs[8] & 0x10 == 0 then a + 25 == r.psp <= |m.mem| && r.fp == m.mem[a + 9..r.psp]
         else a + 9 == r.psp && r.fp == m.fp
  {
  }

  /** `SVC_Handler`: the first task's context is loaded, nothing is saved. */
  function Svc(m: Machine): (r: Machine)
    requires Sized(m) && m.current.Some? && CanLoad(m, m.current.value)
    ensures Sized(r)
  {
    Load(m, m.current.value)
  }

  // ---- The frame of a new task ----

  /** r4-r11, EXC_RETURN, r0-r3, r12, LR, PC, xPSR, from the lowest address up. */
  function NewFrame(func: Word): (f: seq<Word>)
    ensures |f| == CORE + BASIC
  {
    NewCore() + NewBasic(func)
  }

  function NewCore(): (f: seq<Word>)
    ensures |f| == CORE
  {
    [0, 0, 0, 0, 0, 0, 0, 0, 0xFFFF_FFFD]
  }

  function NewBasic(func: Word): (f: seq<Word>)
    ensures |f| == BASIC
  {
    [0, 0, 0, 0, 0, 0xFFFF_FFFD, func | 1, 0x0100_0000]
  }

  lemma FrameParts(func: Word)
    ensures NewFrame(func) ==
      [0, 0, 0, 0] + ([0, 0, 0, 0, 0xFFFF_FFFD] + ([0, 0, 0, 0] + [0, 0xFFFF_FFFD, func | 1, 0x0100_0000]))
  {
  }

  /** Rounded down to a multiple of 8 bytes. */
  function Align(at: nat): (a: nat)
    ensures a <= at <= a + 1 && a % 2 == 0
  {
    at - at % 2
  }

  // ---- The handlers, register by register ----

  class Cpu {
    const mem: array<Word>
    const regs: array<Word>
    const fp: array<Word>
    var sp: seq<nat>
    var psp: nat
    var current: Option<nat>
    var next: nat

    ghost predicate Shape() {
      && mem != regs && mem != fp && regs != fp
      && regs.Length == CORE && fp.Length == HIGH
    }

    ghost function View(): Machine
      reads this, mem, regs, fp
    {
      Machine(mem[..], regs[..], fp[..], psp, sp, current, next)
    }

    constructor (size: nat, tasks: nat)
      ensures Shape() && fresh(mem) && fresh(regs) && fresh(fp)
      ensures mem.Length == size && |sp| == tasks && current.None?
    {
      mem := new Word[size](_ => 0);
      regs := new Word[CORE](_ => 0);
      fp := new Word[HIGH](_ => 0);
      sp := seq(tasks, _ => 0);
      psp, current, next := 0, None, 0;
    }

    /** `stmdb r0!, {...}`: highest register first, downwards. */
    method StoreDown(at: nat, src: array<Word>) returns (r0: nat)
      requires src.Length <= at <= mem.Length && src != mem
      modifies mem
      ensures r0 == at - src.Length && mem[..] == Push(old(mem[..]), at, src[..])
    {
      r0 := at;
      var i := src.Length;
      while i > 0
        invariant 0 <= i <= src.Length && r0 == at - src.Length + i
        invariant forall j :: i <= j < src.Length ==> mem[at - src.Length + j] == src[j]
        invariant forall j :: 0 <= j < mem.Length && !(r0 <= j < at) ==> mem[j] == old(mem[j])
        invariant src[..] == old(src[..])
      {
        i := i - 1;
        r0 := r0 - 1;
        mem[r0] := src[i];
      }
      assert forall j :: r0 <= j < at ==> mem[j] == src[j - r0];
      assert mem[..] == Push(old(mem[..]), at, src[..]);
    }

    /** `ldmia r0!, {...}`: lowest register first, upwards. */
    method LoadUp(at: nat, dst: array<Word>) returns (r0: nat)
      requires at + dst.Length <= mem.Length && dst != mem
      modifies dst
      ensures r0 == at + dst.Length && dst[..] == mem[..][at..at + dst.Length]
    {
      r0 := at;
      for i := 0 to dst.Length
        invariant r0 == at + i
        invariant forall j :: 0 <= j < i ==> dst[j] == mem[at + j]
      {
        dst[i] := mem[r0];
        r0 := r0 + 1;
      }
    }

    /** The tail that PendSV and SVC share. */
    method LoadContext(at: nat)
      requires Shape() && at + CORE <= mem.Length && at + SavedSize(mem[at + 8]) <= mem.Length
      modifies this`psp, regs, fp
      ensures regs[..] == mem[..][at..at + CORE]
      ensures psp == at + SavedSize(regs[8])
      ensures fp[..] == if UsesFpu(regs[8]) then mem[..][at + CORE..at + CORE + HIGH] else old(fp[..])
    {
      var r0 := LoadUp(at, regs);
      assert regs[8] == mem[at + 8];
      if regs[8] & 0x10 == 0 {
        r0 := LoadUp(r0, fp);
      }
      psp := r0;
    }

    /** The context of the running task, if there is one, goes onto its stack. */
    method SaveContext()
      requires Shape() && CanSave(View())
      modifies this`sp, mem
      ensures View() == Save(old(View()))
    {
      hide Push;
      ghost var m := View();
      if current.Some? {
        var r0 := psp;
        if regs[8] & 0x10 == 0 {
          r0 := StoreDown(r0, fp);
        }
        assert regs[..] == m.regs;
        r0 := StoreDown(r0, regs);
        sp := sp[current.value := r0];
        assert regs[..] == m.regs && fp[..] == m.fp;
      }
    }

    /** `PendSV_Handler`. */
    method PendSvHandler()
      requires Shape() && CanSave(View()) && CanLoad(Save(View()), next)
      modifies this, mem, regs, fp
      ensures View() == PendSv(old(View()))
      ensures old(current).Some? ==> var c, fpu := old(current).value, old(regs[8]) & 0x10 == 0;
        && c < |sp| && sp[c] == old(psp) - (if fpu then 25 else 9)
        && mem[..][sp[c]..sp[c] + 9] == old(regs[..])
        && (fpu ==> mem[..][sp[c] + 9..sp[c] + 25] == old(fp[..]))
      ensures next < |sp| && sp[next] + 9 <= mem.Length && regs[..] == mem[..][sp[next]..sp[next] + 9]
      ensures if regs[8] & 0x10 == 0
              then sp[next] + 25 == psp <= mem.Length && fp[..] == mem[..][sp[next] + 9..psp]
              else sp[next] + 9 == psp && fp[..] == old(fp[..])
    {
      hide Save;
      Saved(View());
      Loaded(Save(View()).(current := Some(next)), next);
      SaveContext();
      ghost var saved := View();
      current := Some(next);
      LoadContext(sp[next]);
      assert mem[..] == saved.mem;
    }

    /** `SVC_Handler`. */
    method SvcHandler()
      requires Shape() && Sized(View()) && current.Some? && CanLoad(View(), current.value)
      modifies this`psp, regs, fp
      ensures View() == Svc(old(View()))
      ensures current.Some? && current.value < |sp| && sp[current.value] + 9 <= mem.Length
      ensures regs[..] == mem[..][sp[current.value]..sp[current.value] + 9]
      ensures if regs[8] & 0x10 == 0
              then sp[current.value] + 25 == psp <= mem.Length && fp[..] == mem[..][sp[current.value] + 9..psp]
              else sp[current.value] + 9 == psp && fp[..] == old(fp[..])
    {
      ghost var m := View();
      Loaded(m, current.value);
      LoadContext(sp[current.value]);
      assert mem[..] == m.mem && sp == m.sp;
    }

    /** `task_stack_init`, one push after the other. */
    method TaskStackInit(top: nat, func: Word) returns (r: nat)
      requires CORE + BASIC + 1 <= top <= mem.Length
      modifies mem
      ensures r == Align(top) - CORE - BASIC && mem[..] == Push(old(mem[..]), Align(top), NewFrame(func))
    {
      hide Push;
      r := top - top % 2;
      ghost var was, a := mem[..], r;
      ghost var f := [];
      r, f := PushEntry(r, func, was, a);
      r, f := PushZeros(r, was, a, f);
      r, f := PushHigh(r, was, a, f);
      r, f := PushZeros(r, was, a, f);
      FrameParts(func);
    }

    /** xPSR, PC, LR and r12 of the hardware stack frame. */
    method PushEntry(sp: nat, func: Word, ghost was: seq<Word>, ghost a: nat) returns (r: nat, ghost f: seq<Word>)
      requires CORE + BASIC <= a <= mem.Length == |was| && sp == a && mem[..] == was
      modifies mem
      ensures f == [0, 0xFFFF_FFFD, func | 1, 0x0100_0000] && r == a - |f| && mem[..] == Push(was, a, f)
    {
      hide Push;
      r, f := sp, [];
      assert mem[..] == Push(was, a, f);
      r, f := PushWord(r, 0x0100_0000, was, a, f);
      r, f := PushWord(r, func | 1, was, a, f);
      r, f := PushWord(r, 0xFFFF_FFFD, was, a, f);
      r, f := PushWord(r, 0, was, a, f);
    }

    /** EXC_RETURN and r11 to r8. */
    method PushHigh(sp: nat, ghost was: seq<Word>, ghost a: nat, ghost pushed: seq<Word>)
      returns (r: nat, ghost f: seq<Word>)
      requires |pushed| + 5 <= a <= mem.Length == |was| && sp == a - |pushed|
      requires mem[..] == Push(was, a, pushed)
      modifies mem
      ensures f == [0, 0, 0, 0, 0xFFFF_FFFD] + pushed && r == a - |f| && mem[..] == Push(was, a, f)
    {
      hide Push;
      r, f := sp, pushed;
      r, f := PushWord(r, 0xFFFF_FFFD, was, a, f);
      r, f := PushWord(r, 0, was, a, f);
      r, f := PushWord(r, 0, was, a, f);
      r, f := PushWord(r, 0, was, a, f);
      r, f := PushWord(r, 0, was, a, f);
    }

    /** Four registers that start at 0: r3 to r0, and r7 to r4. */
    method PushZeros(sp: nat, ghost was: seq<Word>, ghost a: nat, ghost pushed: seq<Word>)
      returns (r: nat, ghost f: seq<Word>)
      requires |pushed| + 4 <= a <= mem.Length == |was| && sp == a - |pushed|
      requires mem[..] == Push(was, a, pushed)
      modifies mem
      ensures f == [0, 0, 0, 0] + pushed && r == a - |f| && mem[..] == Push(was, a, f)
    {
      hide Push;
      r, f := sp, pushed;
      r, f := PushWord(r, 0, was, a, f);
      r, f := PushWord(r, 0, was, a, f);
      r, f := PushWord(r, 0, was, a, f);
      r, f := PushWord(r, 0, was, a, f);
    }

    /** `*(--sp) = w`, with the words pushed so far below address `a`. */
    method PushWord(sp: nat, w: Word, ghost was: seq<Word>, ghost a: nat, ghost pushed: seq<Word>)
      returns (r: nat, ghost f: seq<Word>)
      requires |pushed| < a <= mem.Length == |was| && sp == a - |pushed| && mem[..] == Push(was, a, pushed)
      modifies mem
      ensures f == [w] + pushed && r == a - |f| && mem[..] == Push(was, a, f)
    {
      r := sp - 1;
      mem[r] := w;
      f := [w] + pushed;
      assert mem[..] == Push(was, a, f);
    }
  }
}
