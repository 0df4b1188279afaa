/** Memory isolation and mode discipline, for one step and over whole runs. */
module Isolation {
  import opened Wrappers
  import opened Text
  import opened Hardware

  /** A running user program whose window lies behind the system registers and inside RAM and
      has room for the register backup. */
  predicate UserReady(m: Machine) {
    && Valid(m) && m.status.Running? && !m.kernel
    && HW_TIMER < ProcStart(m)
    && ProcStart(m) + USER_SPACE_END < ProcEnd(m) <= Size(m)
  }

  predicate NonNegative(m: Machine, op: Operand)
    requires Valid(m)
  {
    match op
    case Direct(a) => a >= 0
    case Indirect(p) => p >= 0
      && (Read(m, p).signal.Done? && Stoi(Read(m, p).value).Some? ==> Stoi(Read(m, p).value).value >= 0)
    case _ => true
  }

  /** Every address the instruction names is non-negative. */
  predicate InstrNonNegative(m: Machine, instr: Instr)
    requires Valid(m)
  {
    match instr
    case Copy(src, dst) => NonNegative(m, src) && NonNegative(m, dst)
    case Jump(_, target) => NonNegative(m, target)
    case _ => true
  }

  /** The next step fetches from, reads and writes non-negative addresses only. */
  predicate StepNonNegative(m: Machine, input: Inputs)
    requires Valid(m)
  {
    && (Stoi(m.cells[PROGRAM_COUNTER]).Some? ==> Stoi(m.cells[PROGRAM_COUNTER]).value + 1 >= 0)
    && (Fetch(m).signal.Done? ==> InstrNonNegative(Poll(Advance(m), input), Decode(Fetch(m).value)))
  }

  /** Cells a user instruction may change: user registers, the window lo..hi, PC and energy. */
  predicate UserCell(lo: int, hi: int, i: int) {
    1 <= i <= USER_SPACE_END || lo <= i <= hi || i == PROGRAM_COUNTER || i == SYS_ENERGY
  }

  /** `r` differs from `m` only in user cells and, when the mode changed, the interrupt record. */
  ghost predicate Confined(lo: int, hi: int, m: Machine, r: Machine) {
    && |r.cells| == |m.cells| && r.disks == m.disks
    && (forall i :: 0 <= i < |m.cells| && !UserCell(lo, hi, i) && i != INTERRUPT_DATA ==> r.cells[i] == m.cells[i])
    && (r.kernel == m.kernel && INTERRUPT_DATA < |m.cells| && !UserCell(lo, hi, INTERRUPT_DATA)
        ==> r.cells[INTERRUPT_DATA] == m.cells[INTERRUPT_DATA])
  }

  /** The same for a whole step, which may also count the timer down. */
  ghost predicate StepConfined(lo: int, hi: int, m: Machine, r: Machine) {
    && HW_TIMER < |m.cells| == |r.cells|
    && Confined(lo, hi, m, Put(r, HW_TIMER, m.cells[HW_TIMER]))
  }

  lemma SameStart(m: Machine, r: Machine)
    requires Valid(m) && Valid(r) && m.cells[PROC_START] == r.cells[PROC_START]
    ensures ProcStart(m) == ProcStart(r)
  {
  }

  lemma SameBounds(m: Machine, r: Machine)
    requires Valid(m) && Valid(r) && m.cells[PROC_START] == r.cells[PROC_START]
             && m.cells[PROC_END] == r.cells[PROC_END]
    ensures ProcStart(m) == ProcStart(r) && ProcEnd(m) == ProcEnd(r)
  {
  }

  lemma ConfinedSteps(lo: int, hi: int, a: Machine, b: Machine, c: Machine)
    requires Confined(lo, hi, a, b) && Confined(lo, hi, b, c)
    requires b.kernel == a.kernel || c.kernel != a.kernel
    ensures Confined(lo, hi, a, c)
  {
  }

  lemma {:induction false} BackupFrame(m: Machine, offset: int, i: int)
    requires Valid(m) && 1 <= i <= USER_SPACE_END + 1
    ensures var o := BackupRegisters(m, offset, i);
            && o.m.kernel == m.kernel && o.m.disks == m.disks && o.m.status == m.status
            && (o.signal.Done? || o.signal.MemoryFault?)
            && forall k :: 0 <= k < |m.cells| && !(offset + i <= k <= offset + USER_SPACE_END) ==>
                 o.m.cells[k] == m.cells[k]
    decreases USER_SPACE_END + 1 - i
  {
    if i <= USER_SPACE_END && 1 <= i + offset <= Size(m) {
      BackupFrame(Put(m, i + offset, m.cells[i]), offset, i + 1);
    }
  }

  lemma SysCallConfined(m: Machine, n: Machine, lo: int, hi: int)
    requires Valid(m) && m.kernel && ProcStart(m) == lo && HW_TIMER < lo && lo + USER_SPACE_END < hi
    requires !n.kernel && Confined(lo, hi, n, m)
    ensures Confined(lo, hi, n, ExecSysCall(m).m) && ExecSysCall(m).m.kernel
    ensures ExecSysCall(m).m.status == m.status
    ensures !ExecSysCall(m).signal.CpuFault? && !ExecSysCall(m).signal.Wild?
  {
    assert m.(kernel := true) == m;
    if Stoi(m.cells[PROC_START]).Some? {
      BackupFrame(m, Stoi(m.cells[PROC_START]).value, 1);
    }
  }

  lemma ApplyAluConfined(m: Machine, alu: Alu, lo: int, hi: int)
    requires Valid(m)
    ensures var o := ApplyAlu(m, alu);
            Confined(lo, hi, m, o.m) && o.m.status == m.status && o.m.kernel == m.kernel && o.signal == alu.signal
  {
  }

  lemma UserSysCall(c: Machine, lo: int, hi: int)
    requires UserReady(c) && ProcStart(c) == lo && ProcEnd(c) == hi
    ensures var o := ExecSysCall(c);
            && Confined(lo, hi, c, o.m) && o.m.status.Running? && o.m.kernel
            && !o.signal.CpuFault? && !o.signal.Wild?
  {
    var k := c.(kernel := true);
    assert k.(kernel := true) == k;
    SysCallConfined(k, c, lo, hi);
    assert ExecSysCall(c) == ExecSysCall(k);
  }

  predicate CallsSystem(m: Machine)
    requires Valid(m)
  {
    m.cells[REG_OP] != "" && Stoi(m.cells[REG_OP]) == Some(OP_SYSCALL)
  }

  lemma UserPerform(m: Machine, op: int, res: string, err: string, input: Inputs, lo: int, hi: int)
    requires UserReady(m) && ProcStart(m) == lo && ProcEnd(m) == hi && !IsPrivileged(op)
    ensures var o := Perform(m, op, res, err, input);
            && Confined(lo, hi, m, o.m) && o.m.status.Running?
            && (o.m.kernel <==> op == OP_SYSCALL)
            && (o.m.kernel ==> !o.signal.CpuFault?)
  {
    hide Compute, ExecSysCall, ApplyAlu, ProcStart, ProcEnd;
    if IsComputing(op) {
      ApplyAluConfined(m, Compute(op, m.cells[REG_A], m.cells[REG_B], m.cells[REG_C], m.cells[REG_D], input), lo, hi);
    } else if op == OP_SYSCALL {
      UserSysCall(m, lo, hi);
    }
  }

  /** A user-mode operation stays inside the user cells; it changes mode only as a system call. */
  lemma UserOperation(m: Machine, input: Inputs, lo: int, hi: int)
    requires UserReady(m) && ProcStart(m) == lo && ProcEnd(m) == hi
    ensures var o := ExecOperation(m, input);
            && Confined(lo, hi, m, o.m) && o.m.status.Running?
            && (o.m.kernel ==> CallsSystem(m) && !o.signal.CpuFault?)
            && (CallsSystem(m) && o.signal.Done? ==> o.m.kernel)
  {
    hide Perform, Charge;
    var o := ExecOperation(m, input);
    if m.cells[REG_OP] != "" && Stoi(m.cells[REG_OP]).Some? && EnergyOf(m).Some? {
      var op, energy := Stoi(m.cells[REG_OP]).value, EnergyOf(m).value;
      if !IsPrivileged(op) {
        var c := Charge(m, energy, op);
        ChargeConfined(m, energy, op, lo, hi);
        UserPerform(c, op, m.cells[REG_RES], m.cells[REG_ERROR], input, lo, hi);
        ConfinedSteps(lo, hi, m, c, o.m);
      }
    }
  }

  lemma ChargeConfined(m: Machine, energy: int, op: int, lo: int, hi: int)
    requires UserReady(m) && ProcStart(m) == lo && ProcEnd(m) == hi
    ensures var c := Charge(m, energy, op);
            Confined(lo, hi, m, c) && UserReady(c) && ProcStart(c) == lo && ProcEnd(c) == hi && c.kernel == m.kernel
  {
  }

  lemma WriteConfined(m: Machine, addr: int, v: string, lo: int, hi: int)
    requires UserReady(m) && ProcStart(m) == lo && ProcEnd(m) == hi && addr >= 0
    ensures var o := Write(m, addr, v);
            Confined(lo, hi, m, o.m) && o.m.status.Running? && !o.m.kernel
  {
  }

  lemma PointerNonNegative(m: Machine, op: Operand)
    requires Valid(m) && NonNegative(m, op)
    ensures Pointer(m, op).signal.Done? && Pointer(m, op).addr.Some? ==> Pointer(m, op).addr.value >= 0
  {
    hide Read, Stoi;
  }

  lemma UserCopy(m: Machine, src: Operand, dst: Operand, lo: int, hi: int)
    requires UserReady(m) && ProcStart(m) == lo && ProcEnd(m) == hi
    requires NonNegative(m, dst)
    ensures var o := ExecCopy(m, src, dst);
            Confined(lo, hi, m, o.m) && o.m.status.Running? && !o.m.kernel
  {
    hide Read, Write, Pointer, ProcStart, ProcEnd, NonNegative;
    PointerNonNegative(m, dst);
    var d := Pointer(m, dst);
    if d.signal.Done? && d.addr.Some? {
      var s := Pointer(m, src);
      if src.Literal? {
        WriteConfined(m, d.addr.value, src.text, lo, hi);
      } else if s.addr.Some? {
        WriteConfined(m, d.addr.value, Read(m, s.addr.value).value, lo, hi);
      }
    }
  }

  /** The machine as the executed instruction sees it: PC advanced and keyboard polled. */
  function Ready(m: Machine, input: Inputs): (r: Machine)
    requires Valid(m)
    ensures |r.cells| == |m.cells|
  {
    Poll(Advance(m), input)
  }

  lemma ReadyConfined(m: Machine, input: Inputs, lo: int, hi: int)
    requires UserReady(m) && ProcStart(m) == lo && ProcEnd(m) == hi
    ensures var r := Ready(m, input);
            Confined(lo, hi, m, r) && UserReady(r) && ProcStart(r) == lo && ProcEnd(r) == hi && r.kernel == m.kernel
  {
  }

  lemma TwentyFive()
    ensures Stoi("25") == Some(OP_SYSCALL)
  {
    assert PrintNat(2) == "2";
    assert PrintInt(25) == "25";
    StoiPrint(25);
  }

  lemma FaultConfined(m: Machine, code: string, input: Inputs, lo: int, hi: int)
    requires UserReady(m) && ProcStart(m) == lo && ProcEnd(m) == hi
    ensures var r := HandleFault(m, code, input);
            Confined(lo, hi, m, r) && (r.status.Running? ==> r.kernel)
  {
    hide ExecOperation, PrintInt, Stoi;
    var n := Put(Put(Put(m, REG_A, code), REG_E, "0"), REG_OP, "25");
    assert Confined(lo, hi, m, n) && UserReady(n) && ProcStart(n) == lo && ProcEnd(n) == hi;
    TwentyFive();
    UserOperation(n, input, lo, hi);
    ConfinedSteps(lo, hi, m, n, ExecOperation(n, input).m);
  }

  predicate Calls(m: Machine, instr: Instr, input: Inputs)
    requires Valid(m)
  {
    instr.Exec? && CallsSystem(Ready(m, input))
  }

  predicate Faults(m: Machine, instr: Instr, input: Inputs)
    requires Valid(m)
  {
    var o := Execute(Ready(m, input), instr, input);
    o.signal.MemoryFault? || o.signal.CpuFault?
  }

  /** The timer check of this step raises the timer interrupt. */
  predicate Fires(m: Machine, instr: Instr, input: Inputs)
    requires Valid(m)
  {
    var core := Core(m, instr, input);
    !instr.DebugMark? && core.status.Running? && !core.kernel && Stoi(core.cells[HW_TIMER]) == Some(0)
  }

  lemma UserExecute(m: Machine, instr: Instr, input: Inputs, lo: int, hi: int)
    requires UserReady(m) && ProcStart(m) == lo && ProcEnd(m) == hi
    requires InstrNonNegative(m, instr)
    ensures var o := Execute(m, instr, input);
            && Confined(lo, hi, m, o.m) && o.m.status.Running?
            && (o.m.kernel ==> instr.Exec? && CallsSystem(m) && !o.signal.CpuFault?)
            && (instr.Exec? && CallsSystem(m) && o.signal.Done? ==> o.m.kernel)
  {
    hide ExecOperation, ExecCopy;
    match instr
    case Exec => UserOperation(m, input, lo, hi);
    case Copy(src, dst) => UserCopy(m, src, dst, lo, hi);
    case _ =>
  }

  lemma StillReady(m: Machine, r: Machine, lo: int, hi: int)
    requires UserReady(m) && ProcStart(m) == lo && ProcEnd(m) == hi
    requires StepConfined(lo, hi, m, r) && r.status.Running? && !r.kernel
    ensures UserReady(r) && ProcStart(r) == lo && ProcEnd(r) == hi
  {
  }

  /** The part of a user step before the timer check. */
  lemma UserCore(m: Machine, instr: Instr, input: Inputs, lo: int, hi: int)
    requires UserReady(m) && ProcStart(m) == lo && ProcEnd(m) == hi
    requires InstrNonNegative(Ready(m, input), instr)
    ensures var r := Core(m, instr, input);
            && Confined(lo, hi, m, r)
            && (r.status.Running? ==> (r.kernel <==> Calls(m, instr, input) || Faults(m, instr, input)))
  {
    hide Execute, HandleFault, ProcStart, ProcEnd, Advance, Poll;
    if instr.DebugMark? {
      AdvanceConfined(m, lo, hi);
      assert Execute(Ready(m, input), instr, input).signal.Done? by { DebugExecutes(Ready(m, input), input); }
    } else {
      var n := Ready(m, input);
      assert n == Poll(Advance(m), input);
      ReadyConfined(m, input, lo, hi);
      UserExecute(n, instr, input, lo, hi);
      var o := Execute(n, instr, input);
      ConfinedSteps(lo, hi, m, n, o.m);
      if o.m.kernel {
        KernelFaultHalts(o.m, "139", input);
        KernelFaultHalts(o.m, "1", input);
      } else if o.signal.MemoryFault? || o.signal.CpuFault? {
        SelfTimer(m, o.m);
        StillReady(m, o.m, lo, hi);
        var code := if o.signal.MemoryFault? then "139" else "1";
        FaultConfined(o.m, code, input, lo, hi);
        ConfinedSteps(lo, hi, m, o.m, HandleFault(o.m, code, input));
      }
    }
  }

  lemma KernelFaultHalts(m: Machine, code: string, input: Inputs)
    requires Valid(m) && m.kernel
    ensures HandleFault(m, code, input) == m.(status := Halted)
  {
  }

  lemma DebugExecutes(m: Machine, input: Inputs)
    requires Valid(m)
    ensures Execute(m, DebugMark, input) == Outcome(m, Done)
  {
  }

  lemma AdvanceConfined(m: Machine, lo: int, hi: int)
    requires UserReady(m)
    ensures var r := Advance(m); Confined(lo, hi, m, r) && r.status == m.status && r.kernel == m.kernel
  {
  }

  lemma SelfTimer(m: Machine, r: Machine)
    requires Valid(m) && |r.cells| == |m.cells| && r.cells[HW_TIMER] == m.cells[HW_TIMER]
    ensures Put(r, HW_TIMER, m.cells[HW_TIMER]) == r
  {
  }

  lemma TickConfined(m: Machine, lo: int, hi: int)
    requires UserReady(m) && ProcStart(m) == lo && ProcEnd(m) == hi
    ensures var r := Tick(m);
            && StepConfined(lo, hi, m, r)
            && (r.status.Running? ==> (r.kernel <==> Stoi(m.cells[HW_TIMER]) == Some(0)))
  {
    hide Stoi, PrintInt, HandlerAddress, InterruptRecord;
  }

  /** Isolation of one step, and the exact reasons for leaving user mode. */
  lemma UserStep(m: Machine, input: Inputs, lo: int, hi: int)
    requires UserReady(m) && ProcStart(m) == lo && ProcEnd(m) == hi && StepNonNegative(m, input)
    ensures StepConfined(lo, hi, m, Step(m, input))
    ensures var r, instr := Step(m, input), Decode(Fetch(m).value);
            r.status.Running? ==>
              (r.kernel <==> Calls(m, instr, input) || Faults(m, instr, input) || Fires(m, instr, input))
  {
    hide Core, Decode, Calls, Faults, ProcStart, ProcEnd, Tick, Advance, Fetch;
    var instr := Decode(Fetch(m).value);
    AdvanceConfined(m, lo, hi);
    SelfTimer(m, Advance(m));
    if Fetch(m).signal.Done? {
      var core := Core(m, instr, input);
      assert Ready(m, input) == Poll(Advance(m), input);
      UserCore(m, instr, input, lo, hi);
      if core.status.Running? && !core.kernel {
        SelfTimer(m, core);
        StillReady(m, core, lo, hi);
        TickConfined(core, lo, hi);
        ConfinedSteps(lo, hi, m, core, Put(Tick(core), HW_TIMER, m.cells[HW_TIMER]));
      }
    }
  }
}
