/** switch.s and kernel.s instruction by instruction, on registers and a stack that change in place; each routine is
    proved against the function of the same name on values. */
module ContextObjects {
  import opened Contexts

  lemma {:induction false} PushesThen(c: Cpu, xs: seq<Word>, x: Word)
    ensures Pushes(c, xs + [x]) == Push(Pushes(c, xs), x)
    decreases |xs|
  {
    if xs == [] {
      assert xs + [x] == [x] && [x][1..] == [];
    } else {
      assert (xs + [x])[1..] == xs[1..] + [x];
      PushesThen(Push(c, xs[0]), xs[1..], x);
    }
  }

  class Processor {
    var r: Regs
    var m: Mem

    constructor (c: Cpu)
      ensures Abs() == c
    {
      r, m := c.r, c.m;
    }

    ghost function Abs(): Cpu
      reads this
    {
      Cpu(r, m)
    }

    /** One push; `xs` are the pushes done so far in a row of them that started at c, `ys` those after this one. */
    method DoPush(x: Word, ghost c: Cpu, ghost xs: seq<Word>, ghost ys: seq<Word>)
      requires Abs() == Pushes(c, xs) && ys == xs + [x]
      modifies this
      ensures Abs() == Pushes(c, ys) && r == old(r).(esp := old(r).esp - 4)
    {
      PushesThen(c, xs, x);
      r := r.(esp := r.esp - 4);
      m := m[r.esp := x];
    }

    method DoPop() returns (x: Word)
      modifies this`r
      ensures x == Top(old(Abs()), 0) && r == old(r).(esp := old(r).esp + 4)
    {
      x := Rd(m, r.esp);
      r := r.(esp := r.esp + 4);
    }

    /** task_trap, up to its call of main_schedule. Called with the running thread t as its argument, it leaves a frame
        that brings t back to its caller. */
    method TaskTrap()
      modifies this
      ensures Abs() == TrapSave(old(Abs()))
      ensures var c, t := old(Abs()), Top(old(Abs()), 1);
              t < c.r.esp - 20 && c.r.esp + 4 <= t + PG_SIZE && c.r.esp % 4 == 0 ==>
                && FrameOf(m, t, TrapSaved(c))
                && forall a | a != t && !(c.r.esp - 20 <= a < c.r.esp) :: Rd(m, a) == Rd(c.m, a)
    {
      hide Pushes, TrapSave, FrameOf;
      ghost var c := Abs();
      ghost var t := Top(c, 1);
      if t < c.r.esp - 20 && c.r.esp + 4 <= t + PG_SIZE && c.r.esp % 4 == 0 {
        TrapSaves(c, t);
      }
      TrapSteps(c);
      PushesNone(c);
      DoPush(r.esi, c, [], [c.r.esi]);
      DoPush(r.edi, c, [c.r.esi], [c.r.esi, c.r.edi]);
      DoPush(r.ebx, c, [c.r.esi, c.r.edi], [c.r.esi, c.r.edi, c.r.ebx]);
      DoPush(r.ebp, c, [c.r.esi, c.r.edi, c.r.ebx], [c.r.esi, c.r.edi, c.r.ebx, c.r.ebp]);
      DoPush(FAST_SAVE_FLAG, c, [c.r.esi, c.r.edi, c.r.ebx, c.r.ebp],
        [c.r.esi, c.r.edi, c.r.ebx, c.r.ebp, FAST_SAVE_FLAG]);
      r := r.(eax := Rd(m, r.esp + 24));
      m := m[r.eax := r.esp];
    }

    /** context_load, called with its argument above the return address: the thread resumes with what its frame was made
        from. */
    method ContextLoad()
      modifies this`r
      ensures Abs() == Contexts.ContextLoad(old(Abs()), Top(old(Abs()), 1))
      ensures forall s | FrameOf(m, Top(old(Abs()), 1), s) && !Outer(old(r).cs) && old(r).ss == K_STACK :: Resumes(s, r)
    {
      ghost var c, t := Abs(), Top(Abs(), 1);
      forall s | FrameOf(c.m, t, s) && !Outer(c.r.cs) && c.r.ss == K_STACK
        ensures Resumes(s, Contexts.ContextLoad(c, t).r) {
        LoadResumes(c, t, s);
      }
      hide FrameOf, Resumes, Contexts.AllLoad, Contexts.FastLoad;
      r := r.(eax := Rd(m, r.esp + 4));
      r := r.(esp := Rd(m, r.eax));
      var flag := DoPop();
      r := r.(eax := flag);
      if r.eax == ALL_SAVE_FLAG {
        AllLoad();
      } else {
        FastLoad();
      }
    }

    method FastLoad()
      modifies this`r
      ensures Abs() == Contexts.FastLoad(old(Abs()))
    {
      var ebp := DoPop();
      var ebx := DoPop();
      var edi := DoPop();
      var esi := DoPop();
      var eip := DoPop();
      r := r.(ebp := ebp, ebx := ebx, edi := edi, esi := esi, eip := eip);
    }

    /** popad; pop gs; pop fs; pop es; pop ds; add esp, 4; iret */
    method AllLoad()
      modifies this`r
      ensures Abs() == Contexts.AllLoad(old(Abs()))
    {
      hide Popad, Iret, Rd;
      DoPopad();
      var gs := DoPop();
      var fs := DoPop();
      var es := DoPop();
      var ds := DoPop();
      r := r.(gs := gs, fs := fs, es := es, ds := ds, esp := r.esp + 4);
      DoIret();
    }

    method DoPopad()
      modifies this`r
      ensures Abs() == Popad(old(Abs()))
    {
      var edi := DoPop();
      var esi := DoPop();
      var ebp := DoPop();
      var skipped := DoPop();
      var ebx := DoPop();
      var edx := DoPop();
      var ecx := DoPop();
      var eax := DoPop();
      r := r.(edi := edi, esi := esi, ebp := ebp, ebx := ebx, edx := edx, ecx := ecx, eax := eax);
    }

    method DoIret()
      modifies this`r
      ensures Abs() == Iret(old(Abs()))
    {
      hide Rd, Outer;
      var eip := DoPop();
      var cs := DoPop();
      var eflags := DoPop();
      r := r.(eip := eip, cs := cs, eflags := eflags);
      if Outer(cs) {
        var esp := DoPop();
        var ss := DoPop();
        r := r.(esp := esp, ss := ss);
      }
    }

    /** The processor's part of an interrupt. */
    method DoDeliver(t: int)
      modifies this
      ensures Abs() == Deliver(old(Abs()), t)
    {
      hide Pushes;
      var was := r;
      if Outer(was.cs) {
        r := r.(esp := t + PG_SIZE, ss := K_STACK);
        ghost var c := Abs();
        PushesNone(c);
        DoPush(was.ss, c, [], [was.ss]);
        DoPush(was.esp, c, [was.ss], [was.ss, was.esp]);
      }
      ghost var d := Abs();
      PushesNone(d);
      DoPush(was.eflags, d, [], [was.eflags]);
      DoPush(was.cs, d, [was.eflags], [was.eflags, was.cs]);
      DoPush(was.eip, d, [was.eflags, was.cs], [was.eflags, was.cs, was.eip]);
      r := r.(eflags := Cli(was.eflags), cs := K_CODE);
    }

    /** The common pushes of VECTOR and syscall_entry. */
    method DoSaveAll(err: Word)
      modifies this
      ensures Abs() == SaveAll(old(Abs()), err)
    {
      hide Pushes;
      ghost var c := Abs();
      PushesNone(c);
      DoPush(err, c, [], [err]);
      DoPush(r.ds, c, [err], [err, c.r.ds]);
      DoPush(r.es, c, [err, c.r.ds], [err, c.r.ds, c.r.es]);
      DoPush(r.fs, c, [err, c.r.ds, c.r.es], [err, c.r.ds, c.r.es, c.r.fs]);
      DoPush(r.gs, c, [err, c.r.ds, c.r.es, c.r.fs], [err, c.r.ds, c.r.es, c.r.fs, c.r.gs]);
      ghost var d := Abs();
      PushadAndFlag(d);
    }

    /** pushad; push ALL_SAVE_FLAG */
    method PushadAndFlag(ghost d: Cpu)
      requires Abs() == d
      modifies this
      ensures Abs() == Pushes(d, [d.r.eax, d.r.ecx, d.r.edx, d.r.ebx, d.r.esp, d.r.ebp, d.r.esi, d.r.edi,
              ALL_SAVE_FLAG])
    {
      hide Pushes;
      var was := r;
      PushesNone(d);
      DoPush(was.eax, d, [], [was.eax]);
      DoPush(was.ecx, d, [was.eax], [was.eax, was.ecx]);
      DoPush(was.edx, d, [was.eax, was.ecx], [was.eax, was.ecx, was.edx]);
      DoPush(was.ebx, d, [was.eax, was.ecx, was.edx], [was.eax, was.ecx, was.edx, was.ebx]);
      DoPush(was.esp, d, [was.eax, was.ecx, was.edx, was.ebx], [was.eax, was.ecx, was.edx, was.ebx, was.esp]);
      DoPush(was.ebp, d, [was.eax, was.ecx, was.edx, was.ebx, was.esp],
        [was.eax, was.ecx, was.edx, was.ebx, was.esp, was.ebp]);
      DoPush(was.esi, d, [was.eax, was.ecx, was.edx, was.ebx, was.esp, was.ebp],
        [was.eax, was.ecx, was.edx, was.ebx, was.esp, was.ebp, was.esi]);
      DoPush(was.edi, d, [was.eax, was.ecx, was.edx, was.ebx, was.esp, was.ebp, was.esi],
        [was.eax, was.ecx, was.edx, was.ebx, was.esp, was.ebp, was.esi, was.edi]);
      DoPush(ALL_SAVE_FLAG, d, [was.eax, was.ecx, was.edx, was.ebx, was.esp, was.ebp, was.esi, was.edi],
        [was.eax, was.ecx, was.edx, was.ebx, was.esp, was.ebp, was.esi, was.edi, ALL_SAVE_FLAG]);
    }

    /** A VECTOR entry up to the call of the handler. For the running thread t it leaves a frame of all its
        registers. */
    method IntrEntry(t: int, err: Word)
      modifies this
      ensures Abs() == IntrSave(old(Abs()), t, err)
      ensures var c := old(Abs());
              && Rd(c.m, SCHED) == t && !(t <= SCHED < t + PG_SIZE) && t % 4 == 0
              && (!Outer(c.r.cs) ==>
                    t < c.r.esp - 68 && c.r.esp <= t + PG_SIZE && c.r.esp % 4 == 0 && c.r.ss == K_STACK) ==>
                && FrameOf(m, t, Full(c.r))
                && forall a | a != t && !(FrameBase(c, t) <= a < FrameBase(c, t) + FrameSize(Full(c.r))) ::
                   Rd(m, a) == Rd(c.m, a)
    {
      hide Pushes, Deliver, SaveAll, FrameOf, Outer;
      ghost var c := Abs();
      if && Rd(c.m, SCHED) == t && !(t <= SCHED < t + PG_SIZE) && t % 4 == 0
         && (!Outer(c.r.cs) ==> t < c.r.esp - 68 && c.r.esp <= t + PG_SIZE && c.r.esp % 4 == 0 && c.r.ss == K_STACK) {
        IntrSaves(c, t, err);
      }
      DoDeliver(t);
      DoSaveAll(err);
      r := r.(eax := Rd(m, SCHED));
      m := m[r.eax := r.esp];
    }

    /** syscall_entry up to its call of the system call: the three arguments are on top, and above them and 0x80 lies a
        full frame of the registers. */
    method SyscallEntry(t: int)
      modifies this
      ensures Abs() == SyscallSave(old(Abs()), t)
      ensures var c := old(Abs());
              (!Outer(c.r.cs) ==> c.r.ss == K_STACK) ==>
                && Top(Abs(), 0) == c.r.ebx && Top(Abs(), 1) == c.r.ecx && Top(Abs(), 2) == c.r.edx
                && FullAt(m, r.esp + 16, c.r) && r.esp + 16 == FrameBase(c, t)
                && forall a | a < r.esp || a >= FrameBase(c, t) + FrameSize(Full(c.r)) :: Rd(m, a) == Rd(c.m, a)
    {
      hide Pushes, Deliver, SaveAll, FullAt, FrameBase, Outer;
      if !Outer(r.cs) ==> r.ss == K_STACK {
        SyscallSaves(Abs(), t);
      }
      Delivers(Abs(), t);
      SavesAll(Deliver(Abs(), t), 0);
      DoDeliver(t);
      DoSaveAll(0);
      ghost var c := Abs();
      PushesNone(c);
      DoPush(0x80, c, [], [0x80]);
      DoPush(r.edx, c, [0x80], [0x80, c.r.edx]);
      DoPush(r.ecx, c, [0x80, c.r.edx], [0x80, c.r.edx, c.r.ecx]);
      DoPush(r.ebx, c, [0x80, c.r.edx, c.r.ecx], [0x80, c.r.edx, c.r.ecx, c.r.ebx]);
    }

    /** The rest of syscall_entry, and hwi_ret. Above the arguments and 0x80 lies the frame of some registers q: the
        caller gets them back, with the handler's eax. */
    method SyscallExit()
      modifies this
      ensures forall q | FullAt(old(m), old(r).esp + 16, q) && !Outer(old(r).cs) && old(r).ss == K_STACK ::
                r == q.(eax := old(r).eax)
      ensures m == old(m)[old(r).esp + 48 := old(r).eax] && Abs() == SyscallReturn(old(Abs()))
    {
      hide Contexts.AllLoad, Outer, FullAt;
      ghost var h := Abs();
      forall q | FullAt(h.m, h.r.esp + 16, q) && !Outer(h.r.cs) && h.r.ss == K_STACK
        ensures SyscallReturn(h).r == q.(eax := h.r.eax)
      {
        ReturnUnwinds(h, q);
      }
      AllLoadOnlyReads(h.(r := h.r.(esp := h.r.esp + 20), m := h.m[h.r.esp + 48 := h.r.eax]));
      r := r.(esp := r.esp + 12);
      m := m[r.esp + 9 * 4 := r.eax];
      r := r.(esp := r.esp + 4);
      r := r.(esp := r.esp + 4);
      AllLoad();
    }

    /** thread_stack_init of the thread at t, below the stack_top that its control block has: t can be loaded, and will
        enter kernel_thread_entry with func and arg as its arguments. */
    method StackInit(t: int, func: Word, arg: Word)
      modifies this`m
      ensures r == old(r) && m == ThreadStackInit(old(m), t, func, arg)
      ensures var top := Rd(old(m), t) - 112;
              t < top && top + 112 <= t + PG_SIZE && top % 4 == 0 ==>
              && FrameOf(m, t, Fast(0, 0, 0, 0, KERNEL_THREAD_ENTRY, top + 24)) && Rd(m, t) == top
              && Rd(m, top + 28) == func && Rd(m, top + 32) == arg
              && forall a | a != t && !(top <= a < top + 36) :: Rd(m, a) == Rd(old(m), a)
    {
      hide FrameOf, Rd;
      if t < Rd(m, t) - 112 && Rd(m, t) <= t + PG_SIZE && (Rd(m, t) - 112) % 4 == 0 {
        FreshFrame(m, t, func, arg);
      }
      var top := Rd(m, t);
      top := top - 19 * 4;
      top := top - 9 * 4;
      m := m[t := top];
      m := m[top + 20 := KERNEL_THREAD_ENTRY];
      m := m[top + 28 := func];
      m := m[top + 32 := arg];
      m := m[top := FAST_SAVE_FLAG];
      m := m[top + 4 := 0];
      m := m[top + 8 := 0];
      m := m[top + 16 := 0];
      m := m[top + 12 := 0];
    }
  }

  lemma AllLoadOnlyReads(c: Cpu)
    ensures AllLoad(c).m == c.m
  {
  }

  lemma TrapSteps(c: Cpu)
    ensures var d := Pushes(c, [c.r.esi, c.r.edi, c.r.ebx, c.r.ebp, FAST_SAVE_FLAG]);
            var t := Rd(d.m, d.r.esp + 24);
            TrapSave(c) == d.(r := d.r.(eax := t), m := d.m[t := d.r.esp])
  {
    hide Pushes;
  }

  lemma PushesNone(c: Cpu)
    ensures Pushes(c, []) == c
  {
  }
}
