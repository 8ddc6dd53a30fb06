/** Saving and loading thread contexts: task_trap, context_load and the interrupt entry as a machine of registers and
    stack words. Addresses are byte addresses of aligned words; word values are unbounded integers. */
module Contexts {

  type Word = int
  type Mem = map<int, Word>

  const PG_SIZE := 4096
  const ALL_SAVE_FLAG := 0
  const FAST_SAVE_FLAG := 1

  /** The address of `scheduler`, whose first word is running_thread; and of kernel_thread_entry. The linker chooses. */
  const SCHED: int
  const KERNEL_THREAD_ENTRY: int

  const K_CODE := 0x08
  const K_STACK := 0x10

  datatype Regs = Regs(eax: Word, ecx: Word, edx: Word, ebx: Word, esp: Word, ebp: Word, esi: Word, edi: Word,
                       eip: Word, eflags: Word, cs: Word, ds: Word, es: Word, fs: Word, gs: Word, ss: Word)

  datatype Cpu = Cpu(r: Regs, m: Mem)

  function Rd(m: Mem, a: int): Word {
    if a in m then m[a] else 0
  }

  predicate Outer(cs: Word) {
    cs % 4 != 0
  }

  predicate IntrOn(eflags: Word) {
    eflags / 512 % 2 == 1
  }

  function Cli(eflags: Word): (e: Word)
    ensures !IntrOn(e)
  {
    if IntrOn(eflags) then (assert (eflags - 512) / 512 == eflags / 512 - 1; eflags - 512) else eflags
  }

  function Sti(eflags: Word): (e: Word)
    ensures IntrOn(e)
  {
    if IntrOn(eflags) then eflags else (assert (eflags + 512) / 512 == eflags / 512 + 1; eflags + 512)
  }

  // ----- instructions -----

  function Push(c: Cpu, x: Word): Cpu {
    c.(r := c.r.(esp := c.r.esp - 4), m := c.m[c.r.esp - 4 := x])
  }

  function Pushes(c: Cpu, xs: seq<Word>): Cpu
    decreases |xs|
  {
    if xs == [] then c else Pushes(Push(c, xs[0]), xs[1..])
  }

  function Top(c: Cpu, i: nat): Word {
    Rd(c.m, c.r.esp + 4 * i)
  }

  /** edi, esi, ebp, a skipped esp, ebx, edx, ecx, eax */
  function Popad(c: Cpu): Cpu {
    c.(r := c.r.(edi := Top(c, 0), esi := Top(c, 1), ebp := Top(c, 2), ebx := Top(c, 4),
                 edx := Top(c, 5), ecx := Top(c, 6), eax := Top(c, 7), esp := c.r.esp + 32))
  }

  /** Return from interrupt at privilege level 0; to an outer level it also pops the stack pointer. */
  function Iret(c: Cpu): Cpu {
    var r := c.r.(eip := Top(c, 0), cs := Top(c, 1), eflags := Top(c, 2), esp := c.r.esp + 12);
    if Outer(Top(c, 1)) then c.(r := r.(esp := Top(c, 3), ss := Top(c, 4))) else c.(r := r)
  }

  /** What the processor does before the first instruction of an interrupt gate's handler: `t` is the running thread,
      whose page's end is in the task state segment. */
  function Deliver(c: Cpu, t: int): Cpu {
    var r := c.r;
    var on := if Outer(r.cs) then Pushes(c.(r := r.(esp := t + PG_SIZE, ss := K_STACK)), [r.ss, r.esp]) else c;
    var d := Pushes(on, [r.eflags, r.cs, r.eip]);
    d.(r := d.r.(eflags := Cli(r.eflags), cs := K_CODE))
  }

  // ----- switch.s -----

  /** task_trap up to the call of main_schedule: [esp] is the return address, [esp + 4] the argument. */
  function TrapSave(c: Cpu): Cpu {
    var d := Pushes(c, [c.r.esi, c.r.edi, c.r.ebx, c.r.ebp, FAST_SAVE_FLAG]);
    var t := Rd(d.m, d.r.esp + 24);
    d.(r := d.r.(eax := t), m := d.m[t := d.r.esp])
  }

  function FastLoad(c: Cpu): Cpu {
    c.(r := c.r.(ebp := Top(c, 0), ebx := Top(c, 1), edi := Top(c, 2), esi := Top(c, 3), eip := Top(c, 4),
      esp := c.r.esp + 20))
  }

  /** popad, the four segment registers, the error code, iret */
  function AllLoad(c: Cpu): Cpu {
    var d := Popad(c);
    Iret(d.(r := d.r.(gs := Top(d, 0), fs := Top(d, 1), es := Top(d, 2), ds := Top(d, 3), esp := d.r.esp + 20)))
  }

  /** context_load(t) */
  function ContextLoad(c: Cpu, t: int): Cpu {
    var top := Rd(c.m, t);
    var flag := Rd(c.m, top);
    var d := c.(r := c.r.(eax := flag, esp := top + 4));
    if flag == ALL_SAVE_FLAG then AllLoad(d) else FastLoad(d)
  }

  // ----- kernel.s -----

  /** The pushes of VECTOR and of syscall_entry: error code or zero, segments, pushad, flag. */
  function SaveAll(c: Cpu, err: Word): Cpu {
    var d := Pushes(c, [err, c.r.ds, c.r.es, c.r.fs, c.r.gs]);
    Pushes(d, [c.r.eax, c.r.ecx, c.r.edx, c.r.ebx, d.r.esp, c.r.ebp, c.r.esi, c.r.edi, ALL_SAVE_FLAG])
  }

  /** An interrupt entry up to the handler: the frame, and stack_top of the running thread. */
  function IntrSave(c: Cpu, t: int, err: Word): Cpu {
    var d := SaveAll(Deliver(c, t), err);
    d.(r := d.r.(eax := Rd(d.m, SCHED)), m := d.m[Rd(d.m, SCHED) := d.r.esp])
  }

  /** hwi_ret: skip the flag, then as all_load */
  function HwiRet(c: Cpu): Cpu {
    AllLoad(c.(r := c.r.(esp := c.r.esp + 4)))
  }

  /** syscall_entry up to its call: the frame, 0x80, and the three arguments. */
  function SyscallSave(c: Cpu, t: int): Cpu {
    Pushes(SaveAll(Deliver(c, t), 0), [0x80, c.r.edx, c.r.ecx, c.r.ebx])
  }

  /** After the call: drop the arguments, store eax into its slot, drop 0x80. */
  function SyscallReturn(c: Cpu): Cpu {
    var esp := c.r.esp + 12;
    HwiRet(c.(r := c.r.(esp := esp + 4), m := c.m[esp + 9 * 4 := c.r.eax]))
  }

  // ----- thread_stack_init -----

  /** The first load will pop this frame; the words above it are left for a process's interrupt frame. */
  function ThreadStackInit(m: Mem, t: int, func: Word, arg: Word): Mem {
    var top := Rd(m, t) - 19 * 4 - 9 * 4;
    m[t := top][top + 20 := KERNEL_THREAD_ENTRY][top + 28 := func][top + 32 := arg][top := FAST_SAVE_FLAG]
     [top + 4 := 0][top + 8 := 0][top + 16 := 0][top + 12 := 0]
  }

  // ----- frames -----

  /** What a suspended thread has to find again. */
  datatype Saved = Fast(ebp: Word, ebx: Word, edi: Word, esi: Word, eip: Word, esp: Word) | Full(r: Regs)

  ghost predicate FastAt(m: Mem, a: int, s: Saved)
    requires s.Fast?
  {
    && Rd(m, a) == FAST_SAVE_FLAG && Rd(m, a + 4) == s.ebp && Rd(m, a + 8) == s.ebx && Rd(m, a + 12) == s.edi
    && Rd(m, a + 16) == s.esi && Rd(m, a + 20) == s.eip && s.esp == a + 24
  }

  /** struct intr_stack at address a, for registers r. */
  ghost predicate FullAt(m: Mem, a: int, r: Regs) {
    && Rd(m, a) == ALL_SAVE_FLAG && Rd(m, a + 4) == r.edi && Rd(m, a + 8) == r.esi && Rd(m, a + 12) == r.ebp
    && Rd(m, a + 20) == r.ebx && Rd(m, a + 24) == r.edx && Rd(m, a + 28) == r.ecx && Rd(m, a + 32) == r.eax
    && Rd(m, a + 36) == r.gs && Rd(m, a + 40) == r.fs && Rd(m, a + 44) == r.es && Rd(m, a + 48) == r.ds
    && Rd(m, a + 56) == r.eip && Rd(m, a + 60) == r.cs && Rd(m, a + 64) == r.eflags
    && (if Outer(r.cs) then Rd(m, a + 68) == r.esp && Rd(m, a + 72) == r.ss else r.esp == a + 68 && r.ss == K_STACK)
  }

  function FrameSize(s: Saved): int {
    if s.Fast? then 24 else if Outer(s.r.cs) then 76 else 68
  }

  /** stack_top of t leads to a frame for s inside t's page. */
  ghost predicate FrameOf(m: Mem, t: int, s: Saved) {
    var a := Rd(m, t);
    && t < a && a % 4 == 0 && a + FrameSize(s) <= t + PG_SIZE
    && (if s.Fast? then FastAt(m, a, s) else FullAt(m, a, s.r))
  }

  /** A thread that was suspended with s runs again with registers r. A voluntary switch is a function call, so only the
      registers that a callee preserves count. */
  predicate Resumes(s: Saved, r: Regs) {
    match s
    case Fast(ebp, ebx, edi, esi, eip, esp) => r.ebp == ebp && r.ebx == ebx && r.edi == edi && r.esi == esi
      && r.eip == eip && r.esp == esp
    case Full(q) => r == q
  }

  lemma {:induction false} PushesRead(c: Cpu, xs: seq<Word>)
    ensures var d := Pushes(c, xs);
            && d.r == c.r.(esp := c.r.esp - 4 * |xs|)
            && (forall i | 0 <= i < |xs| :: Rd(d.m, c.r.esp - 4 * i - 4) == xs[i])
            && (forall a | a >= c.r.esp || a < d.r.esp :: Rd(d.m, a) == Rd(c.m, a))
    decreases |xs|
  {
    if xs != [] {
      var e := Push(c, xs[0]);
      PushesRead(e, xs[1..]);
      forall i | 0 <= i < |xs| ensures Rd(Pushes(c, xs).m, c.r.esp - 4 * i - 4) == xs[i] {
        if i > 0 {
          assert xs[1..][i - 1] == xs[i];
          assert e.r.esp - 4 * (i - 1) - 4 == c.r.esp - 4 * i - 4;
        }
      }
    }
  }

  /** popad to iret, just above the flag of a full frame. */
  lemma AllLoadGives(c: Cpu, a: int, r: Regs)
    requires FullAt(c.m, a, r) && c.r.esp == a + 4 && c.r.ss == K_STACK
    ensures AllLoad(c).r == r && AllLoad(c).m == c.m
  {
    hide Outer;
  }

  /** Loading any frame gives back what was saved in it, whatever the registers are just before. */
  lemma LoadResumes(c: Cpu, t: int, s: Saved)
    requires FrameOf(c.m, t, s) && !Outer(c.r.cs) && c.r.ss == K_STACK
    ensures Resumes(s, ContextLoad(c, t).r) && ContextLoad(c, t).m == c.m
    ensures s.Fast? ==> var r := ContextLoad(c, t).r; r.eflags == c.r.eflags && r.cs == c.r.cs && r.ss == c.r.ss
  {
    hide Outer, AllLoad;
    if s.Full? {
      var top := Rd(c.m, t);
      AllLoadGives(c.(r := c.r.(eax := ALL_SAVE_FLAG, esp := top + 4)), top, s.r);
    }
  }

  // ----- what the saves leave in memory -----

  lemma TrapSaves(c: Cpu, t: int)
    requires Rd(c.m, c.r.esp + 4) == t && t < c.r.esp - 20 && c.r.esp + 4 <= t + PG_SIZE && c.r.esp % 4 == 0
    ensures FrameOf(TrapSave(c).m, t, TrapSaved(c)) && Rd(TrapSave(c).m, t) == c.r.esp - 20
    ensures forall a | a != t && !(c.r.esp - 20 <= a < c.r.esp) :: Rd(TrapSave(c).m, a) == Rd(c.m, a)
  {
    var xs := [c.r.esi, c.r.edi, c.r.ebx, c.r.ebp, FAST_SAVE_FLAG];
    PushesRead(c, xs);
    hide Pushes;
    var d := Pushes(c, xs);
    assert Rd(d.m, c.r.esp - 4 * 0 - 4) == xs[0] && Rd(d.m, c.r.esp - 4 * 1 - 4) == xs[1]
           && Rd(d.m, c.r.esp - 4 * 2 - 4) == xs[2];
    assert Rd(d.m, c.r.esp - 4 * 3 - 4) == xs[3] && Rd(d.m, c.r.esp - 4 * 4 - 4) == xs[4];
  }

  /** What a call of task_trap is to come back with: it returns, so the return address is off the stack. */
  function TrapSaved(c: Cpu): Saved {
    Fast(c.r.ebp, c.r.ebx, c.r.edi, c.r.esi, Rd(c.m, c.r.esp), c.r.esp + 4)
  }

  lemma Delivers(c: Cpu, t: int)
    ensures var d, o := Deliver(c, t), Outer(c.r.cs);
            var e := if o then t + PG_SIZE - 20 else c.r.esp - 12;
            && d.r == c.r.(esp := e, eflags := Cli(c.r.eflags), cs := K_CODE, ss := if o then K_STACK else c.r.ss)
            && Rd(d.m, e) == c.r.eip && Rd(d.m, e + 4) == c.r.cs && Rd(d.m, e + 8) == c.r.eflags
            && (o ==> Rd(d.m, e + 12) == c.r.esp && Rd(d.m, e + 16) == c.r.ss)
            && forall a | a < e || a >= e + (if o then 20 else 12) :: Rd(d.m, a) == Rd(c.m, a)
  {
    hide Pushes;
    var r := c.r;
    var c1 := c.(r := r.(esp := t + PG_SIZE, ss := K_STACK));
    var ys := [r.ss, r.esp];
    PushesRead(c1, ys);
    var on := if Outer(r.cs) then Pushes(c1, ys) else c;
    if Outer(r.cs) {
      assert Rd(on.m, c1.r.esp - 4 * 0 - 4) == ys[0] && Rd(on.m, c1.r.esp - 4 * 1 - 4) == ys[1];
    }
    var xs := [r.eflags, r.cs, r.eip];
    PushesRead(on, xs);
    var d := Pushes(on, xs);
    assert Rd(d.m, on.r.esp - 4 * 0 - 4) == xs[0] && Rd(d.m, on.r.esp - 4 * 1 - 4) == xs[1]
           && Rd(d.m, on.r.esp - 4 * 2 - 4) == xs[2];
  }

  lemma SavesAll(c: Cpu, err: Word)
    ensures var d, e := SaveAll(c, err), c.r.esp - 56;
            && d.r == c.r.(esp := e)
            && Rd(d.m, e) == ALL_SAVE_FLAG && Rd(d.m, e + 4) == c.r.edi && Rd(d.m, e + 8) == c.r.esi
               && Rd(d.m, e + 12) == c.r.ebp
            && Rd(d.m, e + 20) == c.r.ebx && Rd(d.m, e + 24) == c.r.edx && Rd(d.m, e + 28) == c.r.ecx
               && Rd(d.m, e + 32) == c.r.eax
            && Rd(d.m, e + 36) == c.r.gs && Rd(d.m, e + 40) == c.r.fs && Rd(d.m, e + 44) == c.r.es
               && Rd(d.m, e + 48) == c.r.ds
            && forall a | a < e || a >= c.r.esp :: Rd(d.m, a) == Rd(c.m, a)
  {
    hide Pushes;
    var xs := [err, c.r.ds, c.r.es, c.r.fs, c.r.gs];
    PushesRead(c, xs);
    var d := Pushes(c, xs);
    var p := c.r.esp;
    assert Rd(d.m, p - 4 * 1 - 4) == xs[1] && Rd(d.m, p - 4 * 2 - 4) == xs[2] && Rd(d.m, p - 4 * 3 - 4) == xs[3]
           && Rd(d.m, p - 4 * 4 - 4) == xs[4];
    var ys := [c.r.eax, c.r.ecx, c.r.edx, c.r.ebx, d.r.esp, c.r.ebp, c.r.esi, c.r.edi, ALL_SAVE_FLAG];
    PushesRead(d, ys);
    var f := Pushes(d, ys);
    var q := d.r.esp;
    assert Rd(f.m, q - 4 * 0 - 4) == ys[0] && Rd(f.m, q - 4 * 1 - 4) == ys[1] && Rd(f.m, q - 4 * 2 - 4) == ys[2]
           && Rd(f.m, q - 4 * 3 - 4) == ys[3];
    assert Rd(f.m, q - 4 * 5 - 4) == ys[5] && Rd(f.m, q - 4 * 6 - 4) == ys[6] && Rd(f.m, q - 4 * 7 - 4) == ys[7]
           && Rd(f.m, q - 4 * 8 - 4) == ys[8];
  }

  /** Where the frame of an interrupt ends up. */
  function FrameBase(c: Cpu, t: int): int {
    if Outer(c.r.cs) then t + PG_SIZE - 76 else c.r.esp - 68
  }

  /** Delivery and the pushes make the frame, and touch nothing else. */
  lemma FrameMade(c: Cpu, t: int, err: Word)
    requires !Outer(c.r.cs) ==> c.r.ss == K_STACK
    ensures var d, e := SaveAll(Deliver(c, t), err), FrameBase(c, t);
            && d.r.esp == e && FullAt(d.m, e, c.r)
            && forall a | !(e <= a < e + FrameSize(Full(c.r))) :: Rd(d.m, a) == Rd(c.m, a)
  {
    hide Deliver, SaveAll, Outer, Cli;
    Delivers(c, t);
    SavesAll(Deliver(c, t), err);
  }

  /** Storing stack_top below the frame leaves the frame alone. */
  lemma StoreBelow(m: Mem, t: int, e: int, r: Regs)
    requires FullAt(m, e, r) && t < e
    ensures FullAt(m[t := e], e, r)
  {
    hide Outer;
  }

  lemma IntrSaves(c: Cpu, t: int, err: Word)
    requires Rd(c.m, SCHED) == t && !(t <= SCHED < t + PG_SIZE) && t % 4 == 0
    requires !Outer(c.r.cs) ==> t < c.r.esp - 68 && c.r.esp <= t + PG_SIZE && c.r.esp % 4 == 0 && c.r.ss == K_STACK
    ensures var d, e := IntrSave(c, t, err), FrameBase(c, t);
            && FrameOf(d.m, t, Full(c.r)) && Rd(d.m, t) == e
            && forall a | a != t && !(e <= a < e + FrameSize(Full(c.r))) :: Rd(d.m, a) == Rd(c.m, a)
  {
    hide Deliver, SaveAll, Outer, FullAt;
    FrameMade(c, t, err);
    StoreBelow(SaveAll(Deliver(c, t), err).m, t, FrameBase(c, t), c.r);
  }

  /** The frame of a new thread, and the argument words above it. */
  lemma FreshFrame(m: Mem, t: int, func: Word, arg: Word)
    requires t < Rd(m, t) - 112 && Rd(m, t) <= t + PG_SIZE && Rd(m, t) % 4 == 0
    ensures var m' := ThreadStackInit(m, t, func, arg);
            var top := Rd(m, t) - 112;
            && FrameOf(m', t, Fast(0, 0, 0, 0, KERNEL_THREAD_ENTRY, top + 24)) && Rd(m', t) == top
            && Rd(m', top + 28) == func && Rd(m', top + 32) == arg
            && forall a | a != t && !(top <= a < top + 36) :: Rd(m', a) == Rd(m, a)
  {
  }

  /** The frame of a system call lies above 0x80 and the three arguments. */
  lemma SyscallSaves(c: Cpu, t: int)
    requires !Outer(c.r.cs) ==> c.r.ss == K_STACK
    ensures var d := SyscallSave(c, t);
            && Top(d, 0) == c.r.ebx && Top(d, 1) == c.r.ecx && Top(d, 2) == c.r.edx && FullAt(d.m, d.r.esp + 16, c.r)
            && d.r.esp + 16 == FrameBase(c, t)
            && forall a | a < d.r.esp || a >= FrameBase(c, t) + FrameSize(Full(c.r)) :: Rd(d.m, a) == Rd(c.m, a)
  {
    hide Deliver, SaveAll, Pushes, Outer, Cli, FullAt, FrameBase;
    FrameMade(c, t, 0);
    var s := SaveAll(Deliver(c, t), 0);
    var xs := [0x80, c.r.edx, c.r.ecx, c.r.ebx];
    PushesRead(s, xs);
    var f := Pushes(s, xs);
    assert Rd(f.m, s.r.esp - 4 * 1 - 4) == xs[1] && Rd(f.m, s.r.esp - 4 * 2 - 4) == xs[2]
           && Rd(f.m, s.r.esp - 4 * 3 - 4) == xs[3];
    FullKept(s.m, f.m, s.r.esp, c.r);
  }

  lemma FullKept(m: Mem, m': Mem, a: int, r: Regs)
    requires FullAt(m, a, r) && forall x | x >= a :: Rd(m', x) == Rd(m, x)
    ensures FullAt(m', a, r)
  {
  }

  /** Storing the result in the frame's eax slot and unwinding the frame. */
  lemma ReturnUnwinds(h: Cpu, r: Regs)
    requires FullAt(h.m, h.r.esp + 16, r) && !Outer(h.r.cs) && h.r.ss == K_STACK
    ensures SyscallReturn(h).r == r.(eax := h.r.eax)
  {
    hide Outer, AllLoad;
    var a := h.r.esp + 16;
    var m := h.m[a + 32 := h.r.eax];
    AllLoadGives(h.(r := h.r.(esp := a + 4), m := m), a, r.(eax := h.r.eax));
  }

  /** A system call returns to its caller with every register as it was but eax, which is what the handler returned. The
      handler is a function: it keeps the stack above its arguments, which are ebx, ecx, edx in order. */
  lemma SyscallReturns(c: Cpu, t: int, h: Cpu)
    requires !Outer(c.r.cs) ==> c.r.ss == K_STACK
    requires var d := SyscallSave(c, t);
             && h.r.esp == d.r.esp && !Outer(h.r.cs) && h.r.ss == K_STACK
             && forall a | a >= d.r.esp + 12 :: Rd(h.m, a) == Rd(d.m, a)
    ensures var d := SyscallSave(c, t); Top(d, 0) == c.r.ebx && Top(d, 1) == c.r.ecx && Top(d, 2) == c.r.edx
    ensures SyscallReturn(h).r == c.r.(eax := h.r.eax)
  {
    hide SyscallSave, SyscallReturn, FullAt;
    SyscallSaves(c, t);
    var d := SyscallSave(c, t);
    FullKept(d.m, h.m, d.r.esp + 16, c.r);
    ReturnUnwinds(h, c.r);
  }

  // ----- runs -----

  /** `saved` records what each suspended thread has to find again; the machine itself never reads it. */
  datatype State = State(c: Cpu, saved: map<int, Saved>)

  function Running(m: Mem): int {
    Rd(m, SCHED)
  }

  /** The atomic steps. `r` and `m` are what C code leaves: the running thread's own code in Run; main_schedule, and the
      handler before it, in Trap and Interrupt; the set-up of the control block in Create. */
  datatype Action =
    | Run(r: Regs, m: Mem)
    | Trap(next: int, r: Regs, m: Mem)
    | Interrupt(err: Word, next: int, r: Regs, m: Mem)
    | Create(t: int, func: Word, arg: Word, m: Mem)

  /** The machine and the records just after the save. */
  function Suspend(s: State, a: Action): State
    requires a.Trap? || a.Interrupt?
  {
    var t := Running(s.c.m);
    if a.Trap? then State(TrapSave(s.c), s.saved[t := TrapSaved(s.c)])
    else State(IntrSave(s.c, t, a.err), s.saved[t := Full(s.c.r)])
  }

  function Step(s: State, a: Action): State {
    match a
    case Run(r, m) => State(Cpu(r, m), s.saved)
    case Create(t, func, arg, m) =>
      State(s.c.(m := ThreadStackInit(m, t, func, arg)),
        s.saved[t := Fast(0, 0, 0, 0, KERNEL_THREAD_ENTRY, t + PG_SIZE - 88)])
    case Trap(next, r, m) => State(ContextLoad(Cpu(r, m), next), Suspend(s, a).saved - {next})
    case Interrupt(err, next, r, m) => State(ContextLoad(Cpu(r, m), next), Suspend(s, a).saved - {next})
  }

  predicate Page(t: int) {
    t % PG_SIZE == 0 && !(t <= SCHED < t + PG_SIZE)
  }

  /** In the kernel a thread is on the stack in its own page. */
  predicate OnStack(r: Regs, t: int) {
    !Outer(r.cs) ==> r.ss == K_STACK && r.esp % 4 == 0 && r.esp <= t + PG_SIZE
  }

  /** The code in between leaves the saved part of t's page and its stack_top alone. */
  ghost predicate Kept(m: Mem, m': Mem, t: int) {
    && Rd(m', t) == Rd(m, t)
    && forall a | Rd(m, t) <= a < t + PG_SIZE :: Rd(m', a) == Rd(m, a)
  }

  ghost predicate AllKept(m: Mem, m': Mem, saved: map<int, Saved>) {
    forall t | t in saved :: Kept(m, m', t)
  }

  predicate InScheduler(r: Regs) {
    !Outer(r.cs) && r.ss == K_STACK && !IntrOn(r.eflags)
  }

  ghost predicate Enabled(s: State, a: Action) {
    var t := Running(s.c.m);
    match a
    case Run(r, m) => Running(m) == t && OnStack(r, t) && AllKept(s.c.m, m, s.saved)
    case Create(u, _, _, m) =>
      && Page(u) && u != t && u !in s.saved && Rd(m, u) == u + PG_SIZE
      && Running(m) == t && AllKept(s.c.m, m, s.saved)
    case Trap(next, r, m) =>
      && !Outer(s.c.r.cs) && Rd(s.c.m, s.c.r.esp + 4) == t && t < s.c.r.esp - 20 && s.c.r.esp + 4 < t + PG_SIZE
      && Switches(Suspend(s, a), next, r, m)
    case Interrupt(err, next, r, m) =>
      && IntrOn(s.c.r.eflags) && (!Outer(s.c.r.cs) ==> t < s.c.r.esp - 68)
      && Switches(Suspend(s, a), next, r, m)
  }

  /** main_schedule chose next and calls context_load. */
  ghost predicate Switches(d: State, next: int, r: Regs, m: Mem) {
    InScheduler(r) && next in d.saved && Running(m) == next && AllKept(d.c.m, m, d.saved)
  }

  ghost predicate Inv(s: State) {
    var t := Running(s.c.m);
    && Page(t) && t !in s.saved && OnStack(s.c.r, t)
    && forall u | u in s.saved :: Page(u) && FrameOf(s.c.m, u, s.saved[u])
  }

  lemma KeptFrame(m: Mem, m': Mem, t: int, s: Saved)
    requires FrameOf(m, t, s) && Kept(m, m', t)
    ensures FrameOf(m', t, s)
  {
  }

  /** The save adds the running thread's frame and touches no other thread's page. */
  lemma SuspendKeeps(s: State, a: Action)
    requires Inv(s) && (a.Trap? || a.Interrupt?) && Enabled(s, a)
    ensures var d := Suspend(s, a);
            forall u | u in d.saved ::
              Page(u) && FrameOf(d.c.m, u, d.saved[u]) && (u in s.saved ==> Kept(s.c.m, d.c.m, u))
  {
    hide TrapSave, IntrSave, FastAt, FullAt, Outer, IntrOn, Page;
    var t := Running(s.c.m);
    PageWords(t);
    var d := Suspend(s, a);
    if a.Trap? {
      TrapSaves(s.c, t);
    } else {
      IntrSaves(s.c, t, a.err);
    }
    forall u | u in s.saved ensures FrameOf(d.c.m, u, d.saved[u]) && Kept(s.c.m, d.c.m, u) {
      assert FrameOf(s.c.m, u, s.saved[u]);
      PagesApart(u, t);
      KeptFrame(s.c.m, d.c.m, u, s.saved[u]);
    }
  }

  lemma PagesApart(t: int, u: int)
    requires Page(t) && Page(u) && t != u
    ensures t + PG_SIZE <= u || u + PG_SIZE <= t
  {
  }

  /** A switch: the chosen thread continues with what was saved for it, and all other frames stay. */
  lemma SwitchResumes(s: State, a: Action)
    requires Inv(s) && (a.Trap? || a.Interrupt?) && Enabled(s, a)
    ensures Inv(Step(s, a)) && Running(Step(s, a).c.m) == a.next
    ensures Resumes(Suspend(s, a).saved[a.next], Step(s, a).c.r)
    ensures forall u | u in s.saved :: Kept(s.c.m, Step(s, a).c.m, u)
  {
    hide Suspend, ContextLoad, FastAt, FullAt, TrapSave, IntrSave;
    SuspendKeeps(s, a);
    var d := Suspend(s, a);
    forall u | u in d.saved ensures FrameOf(a.m, u, d.saved[u]) {
      KeptFrame(d.c.m, a.m, u, d.saved[u]);
    }
    LoadResumes(Cpu(a.r, a.m), a.next, d.saved[a.next]);
    ResumedOnStack(a.m, a.next, d.saved[a.next], Cpu(a.r, a.m));
    SuspendSaves(s, a);
  }

  lemma SuspendSaves(s: State, a: Action)
    requires a.Trap? || a.Interrupt?
    ensures Suspend(s, a).saved.Keys == s.saved.Keys + {Running(s.c.m)}
    ensures forall u | u in s.saved && u != Running(s.c.m) :: Suspend(s, a).saved[u] == s.saved[u]
  {
    hide TrapSave, IntrSave;
  }

  lemma ResumedOnStack(m: Mem, t: int, s: Saved, c: Cpu)
    requires FrameOf(m, t, s) && c.m == m && !Outer(c.r.cs) && c.r.ss == K_STACK && Page(t)
    ensures OnStack(ContextLoad(c, t).r, t)
  {
    hide ContextLoad;
    LoadResumes(c, t, s);
  }

  lemma StepKeeps(s: State, a: Action)
    requires Inv(s) && Enabled(s, a)
    ensures Inv(Step(s, a)) && forall u | u in s.saved :: Kept(s.c.m, Step(s, a).c.m, u)
  {
    hide FastAt, FullAt, ThreadStackInit, ContextLoad, TrapSave, IntrSave;
    match a
    case Run(r, m) =>
      forall u | u in s.saved ensures FrameOf(m, u, s.saved[u]) {
        KeptFrame(s.c.m, m, u, s.saved[u]);
      }
    case Create(t, func, arg, m) => CreateKeeps(s, a);
    case Trap(_, _, _) => SwitchResumes(s, a);
    case Interrupt(_, _, _, _) => SwitchResumes(s, a);
  }

  /** Set-up of a control block in page t leaves the suspended threads' pages alone. */
  lemma CreateApart(m: Mem, m1: Mem, m2: Mem, t: int, u: int, s: Saved)
    requires Page(t) && Page(u) && t != u && FrameOf(m, u, s) && Kept(m, m1, u)
    requires forall a | a < t || a >= t + PG_SIZE :: Rd(m2, a) == Rd(m1, a)
    ensures Kept(m, m2, u) && FrameOf(m2, u, s) && Running(m2) == Running(m1)
  {
    hide FastAt, FullAt;
    PagesApart(u, t);
    KeptFrame(m, m1, u, s);
    KeptFrame(m1, m2, u, s);
  }

  lemma CreateKeeps(s: State, a: Action)
    requires Inv(s) && a.Create? && Enabled(s, a)
    ensures Inv(Step(s, a)) && forall u | u in s.saved :: Kept(s.c.m, Step(s, a).c.m, u)
  {
    hide FrameOf, ThreadStackInit, Page, Kept;
    var m2 := Step(s, a).c.m;
    PageWords(a.t);
    FreshFrame(a.m, a.t, a.func, a.arg);
    forall u | u in s.saved ensures Kept(s.c.m, m2, u) && FrameOf(m2, u, s.saved[u]) {
      CreateApart(s.c.m, a.m, m2, a.t, u, s.saved[u]);
    }
  }

  lemma PageWords(t: int)
    requires Page(t)
    ensures t % 4 == 0 && !(t <= SCHED < t + PG_SIZE)
  {
  }

  ghost predicate Reaches(s: State, actions: seq<Action>, s': State)
    decreases |actions|
  {
    if actions == [] then s' == s
    else Enabled(s, actions[0]) && Reaches(Step(s, actions[0]), actions[1..], s')
  }

  predicate Resumed(a: Action, t: int) {
    (a.Trap? || a.Interrupt?) && a.next == t
  }

  ghost predicate NotResumed(actions: seq<Action>, t: int) {
    forall a | a in actions :: !Resumed(a, t)
  }

  lemma RecordStays(s: State, a: Action, t: int)
    requires Inv(s) && Enabled(s, a) && t in s.saved && !Resumed(a, t)
    ensures t in Step(s, a).saved && Step(s, a).saved[t] == s.saved[t]
  {
    hide ContextLoad, TrapSave, IntrSave, ThreadStackInit;
  }

  /** As long as a thread stays suspended, whatever the others do, its record and the words of its stack stay. */
  lemma {:induction false} SuspendedStays(s: State, actions: seq<Action>, s': State, t: int)
    requires Inv(s) && Reaches(s, actions, s') && t in s.saved && NotResumed(actions, t)
    ensures Inv(s') && t in s'.saved && s'.saved[t] == s.saved[t] && Kept(s.c.m, s'.c.m, t)
    decreases |actions|
  {
    hide Step, Enabled, Inv;
    if actions != [] {
      var a := actions[0];
      assert a in actions;
      RecordStays(s, a, t);
      StepKeeps(s, a);
      assert forall b | b in actions[1..] :: b in actions;
      SuspendedStays(Step(s, a), actions[1..], s', t);
    }
  }

  /** Thread t gives up the processor at s by `first`, others run, and `last` gives it back: t goes on with what it had.
      After an interrupt that is every register; after a call of task_trap the registers a callee preserves, the stack
      pointer and the return address. Its stack above that point is untouched. */
  lemma ContextRoundTrip(s: State, first: Action, actions: seq<Action>, s1: State, last: Action)
    requires Inv(s) && (first.Trap? || first.Interrupt?) && Enabled(s, first)
    requires var t := Running(s.c.m);
             && first.next != t && NotResumed(actions, t) && Reaches(Step(s, first), actions, s1)
             && Enabled(s1, last) && Resumed(last, t) && Running(s1.c.m) != t
    ensures var t, r := Running(s.c.m), Step(s1, last).c.r;
            && Running(Step(s1, last).c.m) == t
            && (first.Interrupt? ==> r == s.c.r)
            && (first.Trap? ==> Resumes(TrapSaved(s.c), r) && !IntrOn(r.eflags) && !Outer(r.cs))
    ensures forall a | Running(s.c.m) + PG_SIZE > a >= s.c.r.esp && !Outer(s.c.r.cs) && a != Running(s.c.m) ::
              Rd(Step(s1, last).c.m, a) == Rd(s.c.m, a)
  {
    hide Step, Suspend, Enabled, Inv, Reaches;
    var t := Running(s.c.m);
    StepKeeps(s, first);
    FirstSave(s, first);
    SuspendedStays(Step(s, first), actions, s1, t);
    SwitchResumes(s1, last);
    LastLoad(s1, last, t);
  }

  /** The words of the running thread's stack that a save leaves alone. */
  lemma SaveKeepsStack(s: State, a: Action)
    requires Inv(s) && (a.Trap? || a.Interrupt?) && Enabled(s, a)
    ensures var t, d := Running(s.c.m), Suspend(s, a);
            && (!Outer(s.c.r.cs) ==> Rd(d.c.m, t) < s.c.r.esp)
            && forall x | s.c.r.esp <= x < t + PG_SIZE && !Outer(s.c.r.cs) && x != t :: Rd(d.c.m, x) == Rd(s.c.m, x)
  {
    hide TrapSave, IntrSave, FastAt, FullAt, Switches, Outer, IntrOn, Page;
    var t := Running(s.c.m);
    PageWords(t);
    if a.Trap? {
      TrapSaves(s.c, t);
    } else {
      IntrSaves(s.c, t, a.err);
    }
  }

  /** The record of the thread that is switched out, and its stack. */
  lemma FirstSave(s: State, a: Action)
    requires Inv(s) && (a.Trap? || a.Interrupt?) && Enabled(s, a) && a.next != Running(s.c.m)
    ensures var t, s' := Running(s.c.m), Step(s, a);
            && t in s'.saved && s'.saved[t] == (if a.Trap? then TrapSaved(s.c) else Full(s.c.r))
            && (!Outer(s.c.r.cs) ==> Rd(s'.c.m, t) < s.c.r.esp)
            && forall x | s.c.r.esp <= x < t + PG_SIZE && !Outer(s.c.r.cs) && x != t :: Rd(s'.c.m, x) == Rd(s.c.m, x)
  {
    hide ContextLoad, TrapSave, IntrSave, FrameOf, Inv;
    var t := Running(s.c.m);
    SaveKeepsStack(s, a);
    assert Kept(Suspend(s, a).c.m, a.m, t);
    LoadOnlyReads(Cpu(a.r, a.m), a.next);
  }

  lemma LoadOnlyReads(c: Cpu, t: int)
    ensures ContextLoad(c, t).m == c.m
  {
  }

  lemma LastLoad(s: State, a: Action, t: int)
    requires Inv(s) && Enabled(s, a) && Resumed(a, t) && t in s.saved && Running(s.c.m) != t
    ensures Suspend(s, a).saved[t] == s.saved[t]
    ensures s.saved[t].Fast? ==> !IntrOn(Step(s, a).c.r.eflags) && !Outer(Step(s, a).c.r.cs)
  {
    hide ContextLoad, TrapSave, IntrSave, FastAt, FullAt;
    SuspendKeeps(s, a);
    var d := Suspend(s, a);
    KeptFrame(d.c.m, a.m, t, d.saved[t]);
    LoadResumes(Cpu(a.r, a.m), t, d.saved[t]);
  }

  /** A new thread starts in kernel_thread_entry, with its function and argument where a C function finds them. */
  lemma FreshThreadStarts(s: State, create: Action, actions: seq<Action>, s1: State, last: Action)
    requires Inv(s) && create.Create? && Enabled(s, create) && NotResumed(actions, create.t)
             && Reaches(Step(s, create), actions, s1)
    requires Enabled(s1, last) && Resumed(last, create.t) && Running(s1.c.m) != create.t
    ensures var c := Step(s1, last).c;
            && c.r.eip == KERNEL_THREAD_ENTRY && Rd(c.m, c.r.esp + 4) == create.func
               && Rd(c.m, c.r.esp + 8) == create.arg
            && !IntrOn(c.r.eflags)
  {
    hide Suspend, Enabled, Inv, Reaches, ContextLoad;
    var t := create.t;
    StepKeeps(s, create);
    FreshRecord(s, create);
    SuspendedStays(Step(s, create), actions, s1, t);
    SwitchResumes(s1, last);
    LastLoad(s1, last, t);
    StepKeeps(s1, last);
  }

  lemma FreshRecord(s: State, a: Action)
    requires a.Create? && Enabled(s, a)
    ensures var s' := Step(s, a);
            && a.t in s'.saved && s'.saved[a.t] == Fast(0, 0, 0, 0, KERNEL_THREAD_ENTRY, a.t + PG_SIZE - 88)
            && Rd(s'.c.m, a.t) == a.t + PG_SIZE - 112
            && Rd(s'.c.m, a.t + PG_SIZE - 84) == a.func && Rd(s'.c.m, a.t + PG_SIZE - 80) == a.arg
  {
    hide ThreadStackInit;
    FreshFrame(a.m, a.t, a.func, a.arg);
  }

  // ----- thread_block's interrupt status -----

  const INTR_ON := 1
  const INTR_OFF := 0

  function IntrGetStatus(eflags: Word): Word {
    if IntrOn(eflags) then INTR_ON else INTR_OFF
  }

  /** cli or sti, or nothing when the flag is right already. */
  function IntrSetStatus(eflags: Word, status: Word): Word {
    if status == INTR_ON then (if IntrOn(eflags) then eflags else Sti(eflags)) else IntrDisable(eflags).1
  }

  /** intr_disable: the status it returns, and the flags it leaves. */
  function IntrDisable(eflags: Word): (Word, Word) {
    (IntrGetStatus(eflags), if IntrOn(eflags) then Cli(eflags) else eflags)
  }

  /** thread_block's `int_save = intr_disable()`, with int_save at `slot` in its stack frame. */
  function BlockEnters(c: Cpu, slot: int): Action {
    Run(c.r.(eflags := IntrDisable(c.r.eflags).1), c.m[slot := IntrDisable(c.r.eflags).0])
  }

  /** Its `intr_set_status(int_save)`, once schedule has returned. */
  function BlockLeaves(c: Cpu, slot: int): Cpu {
    c.(r := c.r.(eflags := IntrSetStatus(c.r.eflags, Rd(c.m, slot))))
  }

  /** The C code between the two, up to task_trap: the local variable keeps its value and its place on the stack. */
  ghost predicate KeepsLocal(s: State, body: Action, slot: int) {
    && body.Run? && Enabled(s, body) && Rd(body.m, slot) == Rd(s.c.m, slot)
    && body.r.esp <= slot < Running(s.c.m) + PG_SIZE && slot != Running(s.c.m)
  }

  /** thread_block, entered at s with interrupts on or off. However long the thread is suspended, and by whomever it is
      woken, thread_block leaves with interrupts as it was entered. */
  lemma BlockRestoresInterrupts(s: State, slot: int, body: Action, trap: Action, actions: seq<Action>, s1: State,
      last: Action)
    requires Inv(s) && Enabled(s, BlockEnters(s.c, slot))
    requires var s2 := Step(s, BlockEnters(s.c, slot));
             && KeepsLocal(s2, body, slot) && trap.Trap? && Enabled(Step(s2, body), trap)
             && var t := Running(s.c.m);
             && trap.next != t && NotResumed(actions, t) && Reaches(Step(Step(s2, body), trap), actions, s1)
             && Enabled(s1, last) && Resumed(last, t) && Running(s1.c.m) != t
    ensures IntrOn(BlockLeaves(Step(s1, last).c, slot).r.eflags) <==> IntrOn(s.c.r.eflags)
  {
    var s2 := Step(s, BlockEnters(s.c, slot));
    var s3 := Step(s2, body);
    TrapIsKernel(s3, trap);
    assert Running(s2.c.m) == Running(s.c.m) && Running(s3.c.m) == Running(s.c.m) && s3.c.r.esp <= slot;
    assert Rd(s3.c.m, slot) == IntrGetStatus(s.c.r.eflags);
    hide Step, Suspend, Enabled, Inv, Reaches, KeepsLocal;
    StepKeeps(s, BlockEnters(s.c, slot));
    StepKeeps(s2, body);
    ContextRoundTrip(s3, trap, actions, s1, last);
  }

  lemma TrapIsKernel(s: State, a: Action)
    requires a.Trap? && Enabled(s, a)
    ensures !Outer(s.c.r.cs)
  {
  }

  // ----- a start -----

  /** A page that the scheduler's data is not in, for the idle thread; the next page is another thread's. */
  function IdlePage(): (t: int)
    ensures Page(t) && Page(t + PG_SIZE)
  {
    (SCHED / PG_SIZE + 1) * PG_SIZE
  }

  /** The idle thread alone, in the kernel with interrupts on, and a second page whose control block has its
      stack_top. */
  function Start(): State {
    var t := IdlePage();
    State(Cpu(Regs(0, 0, 0, 0, t + PG_SIZE, 0, 0, 0, 0, 514, K_CODE, K_STACK, K_STACK, K_STACK, K_STACK, K_STACK),
              map[t + PG_SIZE := t + PG_SIZE + PG_SIZE, SCHED := t]), map[])
  }

  /** It is a good state; a thread can be created there, and an interrupt can come. */
  lemma StartRuns(func: Word, arg: Word)
    ensures Inv(Start())
    ensures Enabled(Start(), Create(IdlePage() + PG_SIZE, func, arg, Start().c.m))
    ensures var c := Start().c;
            Enabled(Start(), Interrupt(0, IdlePage(), c.r.(eflags := 2), IntrSave(c, IdlePage(), 0).m))
  {
    hide IntrSave, FrameOf, IdlePage, Page, IntrOn, Outer;
    var c, t := Start().c, IdlePage();
    PageWords(t);
    PageWords(t + PG_SIZE);
    StartFlags(t);
    IntrSaves(c, t, 0);
  }

  lemma StartFlags(t: int)
    requires t % 4 == 0
    ensures IntrOn(514) && !IntrOn(2) && !Outer(K_CODE) && (t + PG_SIZE) % 4 == 0
  {
  }
}
