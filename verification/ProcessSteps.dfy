/** The turns of one process on the shared machine: what its own steps, its system calls, its
    suspension and its resumption do to it, and what they leave alone. */
module ProcessSteps {
  import opened Wrappers
  import opened Text
  import opened Columns
  import opened Hardware
  import opened Isolation
  import opened Runs
  import opened Syscalls
  import opened Relocation
  import opened Preemption
  import R = Ring

  // ---- Running and suspended ----

  predicate Apart(p: Process, q: Process) {
    p.lo + p.len < q.lo || q.lo + q.len < p.lo
  }

  /** The machine, the slot that the kernel last chose, and whether its process runs. */
  datatype Sys = Sys(m: Machine, current: Option<nat>, running: bool)

  /** After a step that ended in `e`: the process runs on, or the timer has interrupted it and the
      handler has saved it. */
  function Settled(e: Machine, current: nat, slot: int, v: KernelVars): Sys
    requires Valid(e)
  {
    if !e.kernel then Sys(e, Some(current), true)
    else if CanSave(e, slot, v) then
      match ContextSaved(e, slot, v)
      case None => Sys(e, Some(current), false)
      case Some(saved) => Sys(saved, Some(current), false)
    else Sys(e, Some(current), false)
  }

  /** A call in the uninterrupted run takes the kernel's answer at once. */
  function Answered(u: Machine, input: Inputs, res: string, err: string): (r: Machine)
    requires Valid(u)
    ensures |r.cells| == |u.cells|
  {
    if EnergyOf(u).None? then u else Put(Put(AtCall(u, input), REG_RES, res), REG_ERROR, err)
  }

  /** The running process calls the system: fetch and operation read as in its uninterrupted run. */
  ghost predicate Calling(u: Machine, input: Inputs)
    requires Valid(u)
  {
    && NextIs(u, input, OP_SYSCALL) && Stoi(u.cells[PROGRAM_COUNTER]).Some?
    && Readable(Stoi(u.cells[PROGRAM_COUNTER]).value + 1, true) && InInt(Stoi(u.cells[PROGRAM_COUNTER]).value + 1)
  }

  ghost predicate HandlersSet(m: Machine)
    requires Valid(m)
  {
    HandlerAddress(m.cells[INTERRUPT_HANDLER]).Some? && HandlerAddress(m.cells[SYSCALL_HANDLER]).Some?
  }

  /** A suspended process whose block and control block are the same is still suspended. */
  lemma FrozenKept(m: Machine, r: Machine, u: Machine, p: Process)
    requires Frozen(m, u, p) && |r.cells| == |m.cells| && r.status.Running? && r.cells[p.slot] == m.cells[p.slot]
    requires forall c :: p.lo <= c <= p.lo + p.len ==> 0 <= c < |m.cells| && r.cells[c] == m.cells[c]
    ensures Frozen(r, u, p)
  {
    hide Named, HasWindow, PcSaved;
  }

  lemma FrozenOutside(m: Machine, r: Machine, u: Machine, p: Process, q: Process, floor: int)
    requires Frozen(m, u, q) && KeepsOutside(m, r, p, floor) && r.status.Running? && Apart(p, q) && p.slot != q.slot
    requires floor <= q.lo && floor <= q.slot
    requires !(p.lo <= q.slot <= p.lo + p.len) && !(q.lo <= p.slot <= q.lo + q.len)
    ensures Frozen(r, u, q)
  {
    hide Named, HasWindow, PcSaved, Alone;
    FrozenKept(m, r, u, q);
  }

  lemma SameSize(m: Machine, r: Machine, p: Process, floor: int)
    requires KeepsOutside(m, r, p, floor)
    ensures |r.cells| == |m.cells|
  {
  }

  lemma SlotKept(m: Machine, r: Machine, p: Process, c: int, floor: int)
    requires KeepsOutside(m, r, p, floor) && 0 <= c && floor <= c < |m.cells| && !(p.lo <= c <= p.lo + p.len)
             && c != p.slot
    ensures r.cells[c] == m.cells[c]
  {
  }

  lemma OutsideSteps(a: Machine, b: Machine, c: Machine, p: Process, floor: int)
    requires KeepsOutside(a, b, p, floor) && KeepsOutside(b, c, p, floor)
    ensures KeepsOutside(a, c, p, floor)
  {
  }

  // ---- Suspended processes ----

  lemma FrozenBounds(m: Machine, u: Machine, p: Process)
    requires Frozen(m, u, p)
    ensures 0 <= p.lo && p.lo + p.len < |m.cells| && 0 <= p.slot < |m.cells|
  {
  }

  /** A suspended process stays suspended when it is woken. */
  lemma FrozenWoken(m: Machine, r: Machine, u: Machine, p: Process)
    requires Frozen(m, u, p) && |r.cells| == |m.cells| && r.status.Running?
             && r.cells[p.slot] in {m.cells[p.slot], R.Woken(m.cells[p.slot])}
    requires forall c :: p.lo <= c <= p.lo + p.len ==> 0 <= c < |m.cells| && r.cells[c] == m.cells[c]
    ensures Frozen(r, u, p)
  {
    hide GetColumn, R.IsRecord, R.Woken, HasWindow, PrintInt;
    R.WokenIsReady(m.cells[p.slot]);
  }

  lemma FrozenSlot(m: Machine, u: Machine, p: Process)
    requires Frozen(m, u, p)
    ensures R.IsRecord(m.cells[p.slot])
  {
    hide R.IsRecord, GetColumn;
  }

  lemma FlaggedSame(m: Machine, r: Machine)
    requires Valid(m) && Valid(r) && Flagged(m) && r.cells[INTERRUPT_DATA] == m.cells[INTERRUPT_DATA]
    ensures Flagged(r)
  {
    hide InterruptRecord;
  }

  lemma FrozenPrinted(m: Machine, u: Machine, p: Process)
    requires Frozen(m, u, p)
    ensures Valid(u) && PcPrinted(u)
  {
    hide GetColumn, PrintInt;
  }

  lemma EnergySame(m: Machine, r: Machine)
    requires Valid(m) && Valid(r) && r.cells[SYS_ENERGY] == m.cells[SYS_ENERGY]
    ensures EnergyReadable(m) == EnergyReadable(r)
  {
  }

  lemma DispatchOutside(m: Machine, core: Machine, p: Process, floor: int)
    requires Valid(m) && |core.cells| == |m.cells| && forall c :: 0 <= c && floor <= c < |m.cells| ==>
               core.cells[c] == m.cells[c]
    ensures KeepsOutside(m, core, p, floor)
  {
  }

  lemma TimerEnergy(core: Machine, u: Machine, p: Process)
    requires Active(core, u, p) && EnergyReadable(core)
    ensures Valid(TimerPhase(core)) && EnergyReadable(TimerPhase(core))
  {
    hide Twins, Named, Alone, Stoi, HandlerAddress, PrintInt, InterruptRecord;
  }

  // ---- Own steps ----

  /** A quiet step, up to the timer check. */
  lemma OwnCore(m: Machine, u: Machine, p: Process, input: Inputs, floor: int)
    requires Active(m, u, p) && Quiet(u, input) && EnergyReadable(m) && HW_TIMER < floor
    ensures Fetch(m).signal.Done?
    ensures var instr := Decode(Fetch(m).value);
            var core := Core(m, instr, input);
            && Active(core, Step(u, input), p) && PcPrinted(Step(u, input)) && KeepsOutside(m, core, p, floor)
            && core.cells[INTERRUPT_HANDLER] == m.cells[INTERRUPT_HANDLER]
            && Step(m, input) == if instr.DebugMark? then core else TimerPhase(core)
  {
    hide Twins, Quiet, Decode, Fetch, Core, Named, EnergyReadable, Stoi, PcPrinted, HasWindow, InstrNonNegative;
    SharedCore(m, u, p, input);
    QuietFetches(u, input);
    QuietPrintsPc(u, p, input);
    ActiveRuns(m, u, p);
    OwnOutside(m, u, p, input, floor);
  }

  lemma OwnOutside(m: Machine, u: Machine, p: Process, input: Inputs, floor: int)
    requires Active(m, u, p) && Quiet(u, input) && EnergyReadable(m) && HW_TIMER < floor
    ensures KeepsOutside(m, Core(m, Decode(Fetch(u).value), input), p, floor)
  {
    hide Execute, Decode, Fetch, Advance, Poll, Stoi, Named, Core, InstrOk, InstrNonNegative, Readable, Twins;
    var instr := Decode(Fetch(u).value);
    TwinReady(u, m, p.lo, p.lo, p.len, true, input);
    TwinNonNegative(Ready(u, input), Ready(m, input), p, instr);
    SharedStays(m, u, p, input);
  }

  lemma PlacedStays(m: Machine, u: Machine, p: Process)
    requires Active(m, u, p)
    ensures Valid(m) && Valid(u) && HW_TIMER < p.lo && 0 <= p.slot < |m.cells|
  {
  }

  ghost predicate SettledWell(m: Machine, r: Sys, u: Machine, p: Process, k: nat, floor: int) {
    && Valid(r.m) && r.current == Some(k) && r.m.status.Running? && KeepsOutside(m, r.m, p, floor)
    && (if r.running then Active(r.m, u, p) else Frozen(r.m, u, p) && r.m.kernel && Flagged(r.m))
  }

  /** The end of a step that has reached `core`: with or without the timer check, the process runs
      on or is suspended, and nothing else changes. */
  lemma StepTicks(m: Machine, core: Machine, e: Machine, u: Machine, p: Process, v: KernelVars, floor: int)
    requires Valid(m) && Active(core, u, p) && PcPrinted(u) && KeepsOutside(m, core, p, floor) && Valid(e)
             && (e == core || e == TimerPhase(core))
    requires VarsBelow(v, floor) && floor <= p.lo && floor <= p.slot
    requires EnergyReadable(e) && HandlerAddress(core.cells[INTERRUPT_HANDLER]).Some?
    ensures forall k: nat :: SettledWell(m, Settled(e, k, p.slot, v), u, p, k, floor)
  {
    hide Active, Frozen, Flagged, HandlerAddress, ContextSaved, ProcStart, PcPrinted, Stoi, TimerPhase,
      EnergyReadable;
    PlacedStays(core, u, p);
    ActiveRuns(core, u, p);
    if e != core {
      assert EnergyReadable(core) by { TickKeepsEnergy(core, u, p); }
      TickSettles(core, u, p, v, floor);
      if e.kernel {
        OutsideSteps(m, core, ContextSaved(e, p.slot, v).value, p, floor);
        FrozenRuns(ContextSaved(e, p.slot, v).value, u, p);
      } else {
        OutsideSteps(m, core, e, p, floor);
        ActiveRuns(e, u, p);
      }
    }
  }

  lemma FrozenRuns(m: Machine, u: Machine, p: Process)
    requires Frozen(m, u, p)
    ensures Valid(m) && m.status.Running?
  {
  }

  lemma TickKeepsEnergy(core: Machine, u: Machine, p: Process)
    requires Active(core, u, p) && EnergyReadable(TimerPhase(core))
    ensures EnergyReadable(core)
  {
    hide Twins, Named, Alone, Stoi, HandlerAddress, PrintInt, InterruptRecord;
  }

  // ---- System calls ----

  /** The call is the same on the shared machine. */
  lemma CallIsNext(m: Machine, u: Machine, p: Process, input: Inputs)
    requires Active(m, u, p) && Calling(u, input) && EnergyReadable(m)
    ensures NextIs(m, input, OP_SYSCALL) && EnergyOf(u).Some? && m.cells[PROGRAM_COUNTER] == u.cells[PROGRAM_COUNTER]
    ensures Twins(Ready(u, input), Ready(m, input), p.lo, p.lo, p.len, true)
  {
    hide Twins, Decode, Fetch, Stoi, Readable, HasWindow, Named, Advance, Poll;
    TwinFetch(u, m, p.lo, p.lo, p.len, true);
    TwinReady(u, m, p.lo, p.lo, p.len, true, input);
    TwinRegisters(Ready(u, input), Ready(m, input), p.lo, p.lo, p.len, true);
  }

  lemma ActiveReady(m: Machine, u: Machine, p: Process)
    requires Active(m, u, p)
    ensures UserReady(m) && ProcStart(m) == p.lo && ProcEnd(m) == p.lo + p.len && HasWindow(m, p.lo, p.len)
  {
    hide Stoi;
  }

  /** What a system call changes: registers, PC, energy, the record and the backup area. */
  lemma CallFrame(m: Machine, input: Inputs, lo: int, pc: int)
    requires UserReady(m) && ProcStart(m) == lo && NextIs(m, input, OP_SYSCALL)
    requires Stoi(m.cells[PROGRAM_COUNTER]) == Some(pc - 1) && InInt(pc)
             && HandlerAddress(m.cells[SYSCALL_HANDLER]).Some?
    ensures forall c :: USER_SPACE_END < c < |m.cells| ==>
              c in {PROGRAM_COUNTER, SYS_ENERGY, INTERRUPT_DATA} || lo < c <= lo + USER_SPACE_END
              || Step(m, input).cells[c] == m.cells[c]
  {
    hide AtCall, NextIs, Step, ExecSysCall, ProcStart, ProcEnd, BackupRegisters, SaveUser, EnterHandler,
      HandlerAddress, Stoi, PrintInt;
    NextHasEnergy(m, input, OP_SYSCALL);
    var u := AtCall(m, input);
    StoiPrint(pc);
    AtCallReady(m, input, pc);
    EntrySaves(u, lo, pc);
    SysCallStep(m, input);
    CallCells(m, input);
    var saved := UserSaved(u, lo);
    CallIsEnter(u, saved);
    EnterExact(saved, "0", "0", SYSCALL_HANDLER, pc);
    SavedFrame(u, saved, lo);
  }

  lemma CallCells(m: Machine, input: Inputs)
    requires Valid(m) && EnergyOf(m).Some?
    ensures forall c :: USER_SPACE_END < c < |m.cells| && c !in {PROGRAM_COUNTER, SYS_ENERGY} ==>
              AtCall(m, input).cells[c] == m.cells[c]
  {
    hide PrintInt;
  }

  lemma SavedFrame(u: Machine, saved: Machine, lo: int)
    requires UserReady(u) && ProcStart(u) == lo && SaveUser(u.(kernel := true)) == Outcome(saved, Done)
    ensures forall c :: USER_SPACE_END < c < |u.cells| && !(lo < c <= lo + USER_SPACE_END) ==>
              saved.cells[c] == u.cells[c]
  {
    hide BackupRegisters, SaveUser;
    var k := u.(kernel := true);
    BackupFrame(k, lo, 1);
    SameStart(u, k);
    SaveIsBackupAt(k, lo);
  }

  lemma AnsweredIs(u: Machine, p: Process, input: Inputs, pc: int, res: string, err: string)
    requires Alone(u, p) && EnergyOf(u).Some? && Stoi(u.cells[PROGRAM_COUNTER]) == Some(pc - 1)
    ensures var v := Answered(u, input, res, err);
            && Alone(v, p) && v.cells[PROGRAM_COUNTER] == PrintInt(pc) && v.cells[REG_RES] == res
            && v.cells[REG_ERROR] == err
            && (forall i :: SavedRegister(i) && i != REG_RES && i != REG_ERROR ==>
                 v.cells[i] == AtCall(u, input).cells[i])
            && forall c :: HW_TIMER < c < |u.cells| ==> v.cells[c] == u.cells[c]
  {
    hide PrintInt, Stoi;
  }

  lemma AtCallTwins(m: Machine, u: Machine, p: Process, input: Inputs)
    requires Active(m, u, p) && Calling(u, input) && EnergyReadable(m)
    ensures EnergyOf(u).Some? && EnergyOf(m).Some?
    ensures forall i :: SavedRegister(i) ==> AtCall(u, input).cells[i] == AtCall(m, input).cells[i]
  {
    hide Twins, Stoi, HasWindow, Named, Ready, Charge, NextIs;
    CallIsNext(m, u, p, input);
    var x, y := Ready(u, input), Ready(m, input);
    var e, f := EnergyOf(u).value, EnergyOf(m).value;
    TwinCharge(x, y, p.lo, p.lo, p.len, true, e, f, OP_SYSCALL);
    TwinRegisters(Charge(x, e, OP_SYSCALL), Charge(y, f, OP_SYSCALL), p.lo, p.lo, p.len, true);
  }

  /** Equal registers, PC and block make the two machines twins. */
  lemma MakesTwins(v: Machine, r: Machine, p: Process)
    requires Alone(v, p) && HasWindow(r, p.lo, p.len) && !r.kernel && r.status.Running?
    requires r.cells[PROGRAM_COUNTER] == v.cells[PROGRAM_COUNTER]
    requires forall i :: SavedRegister(i) ==> r.cells[i] == v.cells[i]
    requires forall j :: p.lo <= j <= p.lo + p.len && !(p.lo < j <= p.lo + USER_SPACE_END) ==>
                           0 <= j < |r.cells| && j < |v.cells| && r.cells[j] == v.cells[j]
    ensures Twins(v, r, p.lo, p.lo, p.len, true)
  {
    hide ProcStart, ProcEnd;
  }

  lemma SameWindow(m: Machine, r: Machine, lo: int, len: int)
    requires HasWindow(m, lo, len) && |r.cells| == |m.cells| && r.cells[PROC_START] == m.cells[PROC_START]
             && r.cells[PROC_END] == m.cells[PROC_END]
    ensures HasWindow(r, lo, len)
  {
    hide Stoi;
  }

  /** What the kernel keeps of the caller. */
  ghost predicate ServedCaller(m1: Machine, served: Machine, p: Process) {
    && Valid(m1) && Valid(served) && |served.cells| == |m1.cells| && served.kernel && 0 <= p.slot < |m1.cells|
    && (forall c :: c in {PROC_START, PROC_END, INTERRUPT_DATA} ==> served.cells[c] == m1.cells[c])
    && (forall c :: p.lo <= c <= p.lo + p.len && 0 <= c < |m1.cells| ==> served.cells[c] == m1.cells[c])
    && Named(served.cells[p.slot], p)
  }

  /** A system call and its return, up to the timer check. */
  lemma CallCore(m: Machine, u: Machine, p: Process, input: Inputs, served: Machine, back: Inputs, floor: int)
    requires Active(m, u, p) && Calling(u, input) && EnergyReadable(m) && HandlerAddress(m.cells[SYSCALL_HANDLER]).Some?
             && HW_TIMER < floor
    requires ServedCaller(Step(m, input), served, p) && NextIs(served, back, OP_SYSRETURN)
    ensures var v := Answered(u, input, Ready(served, back).cells[REG_RES], Ready(served, back).cells[REG_ERROR]);
            var core := Core(served, Exec, back);
            && Active(core, v, p) && PcPrinted(v) && KeepsOutside(served, core, p, floor)
            && core.cells[INTERRUPT_HANDLER] == served.cells[INTERRUPT_HANDLER]
            && Step(served, back) == TimerPhase(core)
  {
    hide Twins, Stoi, PrintInt, NextIs, Step, Core, Fetch, Decode, Ready, AtCall, Named, HandlerAddress,
      EnergyReadable, Answered, Alone, ProcStart, ProcEnd, TimerPhase;
    var pc := Stoi(u.cells[PROGRAM_COUNTER]).value + 1;
    CallIsNext(m, u, p, input);
    ActiveReady(m, u, p);
    CallFrame(m, input, p.lo, pc);
    SyscallRoundTrip(m, input, served, back, p.lo, pc);
    AtCallTwins(m, u, p, input);
    var res, err := Ready(served, back).cells[REG_RES], Ready(served, back).cells[REG_ERROR];
    AnsweredIs(u, p, input, pc, res, err);
    var v, core := Answered(u, input, res, err), Core(served, Exec, back);
    SameWindow(m, core, p.lo, p.len);
    BlocksAgree(m, u, p);
    MakesTwins(v, core, p);
    ReturnTicks(served, back);
  }

  lemma BlocksAgree(m: Machine, u: Machine, p: Process)
    requires Active(m, u, p)
    ensures Placed(m, p) && HasWindow(m, p.lo, p.len) && HasWindow(u, p.lo, p.len)
    ensures forall j :: p.lo <= j <= p.lo + p.len && !(p.lo < j <= p.lo + USER_SPACE_END) ==>
                          0 <= j < |m.cells| && j < |u.cells| && u.cells[j] == m.cells[j]
  {
    hide ProcStart, ProcEnd;
  }

  lemma ReturnTicks(m: Machine, back: Inputs)
    requires Valid(m) && NextIs(m, back, OP_SYSRETURN)
    ensures Step(m, back) == TimerPhase(Core(m, Exec, back))
  {
    hide Core, TimerPhase, Decode, Fetch, Stoi, Ready;
  }

  lemma CallOutside(m: Machine, u: Machine, p: Process, input: Inputs, floor: int)
    requires Active(m, u, p) && Calling(u, input) && EnergyReadable(m) && HandlerAddress(m.cells[SYSCALL_HANDLER]).Some?
             && HW_TIMER < floor
    ensures KeepsOutside(m, Step(m, input), p, floor) && Step(m, input).status.Running?
  {
    hide Twins, Stoi, NextIs, Step, AtCall, Named, HandlerAddress, EnergyReadable, Alone, ProcStart, ProcEnd, Saved,
      PrintInt, InterruptRecord;
    var pc := Stoi(u.cells[PROGRAM_COUNTER]).value + 1;
    CallIsNext(m, u, p, input);
    ActiveReady(m, u, p);
    CallFrame(m, input, p.lo, pc);
    CallStep(m, input, p.lo, pc);
  }

  lemma ServedIsValid(m1: Machine, served: Machine, p: Process)
    requires ServedCaller(m1, served, p)
    ensures Valid(served)
  {
  }

  // ---- Leaving for good ----

  /** The step enters the kernel by a system call or a fault; the exit code is in REG_A. */
  ghost predicate Leaves(m: Machine, input: Inputs)
    requires Valid(m)
  {
    && Fetch(m).signal.Done? && StepNonNegative(m, input) && !Decode(Fetch(m).value).DebugMark?
    && Core(m, Decode(Fetch(m).value), input).kernel && Step(m, input).status.Running?
  }

  ghost predicate CallRecord(text: string, n: int) {
    text == InterruptRecord("0", n, "0")
  }

  ghost predicate Entered(m: Machine)
    requires Valid(m)
  {
    exists n :: CallRecord(m.cells[INTERRUPT_DATA], n)
  }

  lemma SysCallEnters(m: Machine)
    requires Valid(m) && ExecSysCall(m).signal.Done?
    ensures Entered(ExecSysCall(m).m)
  {
    hide SaveUser, PrintInt, InterruptRecord, HandlerAddress;
    var saved := SaveUser(m.(kernel := true));
    if Stoi(saved.m.cells[PROGRAM_COUNTER]).Some? {
      assert CallRecord(ExecSysCall(m).m.cells[INTERRUPT_DATA], Stoi(saved.m.cells[PROGRAM_COUNTER]).value);
    }
  }

  lemma OperationEnters(m: Machine, input: Inputs, lo: int, hi: int)
    requires UserReady(m) && ProcStart(m) == lo && ProcEnd(m) == hi
    ensures var o := ExecOperation(m, input); o.m.kernel && o.signal.Done? ==> Entered(o.m)
  {
    hide ExecSysCall, Stoi, PrintInt, ProcStart, ProcEnd, Entered, Compute, ApplyAlu;
    var o := ExecOperation(m, input);
    UserOperation(m, input, lo, hi);
    if o.m.kernel && o.signal.Done? {
      var c := Charge(m, EnergyOf(m).value, OP_SYSCALL);
      assert o == ExecSysCall(c);
      SysCallEnters(c);
    }
  }

  lemma FaultEnters(m: Machine, code: string, input: Inputs)
    requires UserReady(m)
    ensures var r := HandleFault(m, code, input); r.kernel && r.status.Running? ==> Entered(r)
  {
    hide ExecOperation, ProcStart, ProcEnd, PrintInt, Stoi, Entered;
    var n := Put(Put(Put(m, REG_A, code), REG_E, "0"), REG_OP, "25");
    SameBounds(m, n);
    OperationEnters(n, input, ProcStart(m), ProcEnd(m));
  }

  /** Entering the kernel, by a call or by a fault, notes a record of kind 0. */
  lemma CoreEnters(m: Machine, instr: Instr, input: Inputs)
    requires UserReady(m) && InstrNonNegative(Ready(m, input), instr) && !instr.DebugMark?
    ensures var r := Core(m, instr, input); r.kernel && r.status.Running? ==> Entered(r)
  {
    hide Execute, HandleFault, ExecOperation, ProcStart, ProcEnd, InstrNonNegative, Advance, Poll, Entered;
    var lo, hi := ProcStart(m), ProcEnd(m);
    ReadyConfined(m, input, lo, hi);
    var n := Ready(m, input);
    assert n == Poll(Advance(m), input);
    UserExecute(n, instr, input, lo, hi);
    var o := Execute(n, instr, input);
    ExecuteEnters(n, instr, input, lo, hi);
    if o.m.kernel {
      KernelFaultHalts(o.m, "139", input);
      KernelFaultHalts(o.m, "1", input);
    } else {
      FaultStart(n, o.m, lo, hi);
      FaultEnters(o.m, "139", input);
      FaultEnters(o.m, "1", input);
    }
  }

  lemma ExecuteEnters(m: Machine, instr: Instr, input: Inputs, lo: int, hi: int)
    requires UserReady(m) && ProcStart(m) == lo && ProcEnd(m) == hi
    ensures var o := Execute(m, instr, input); o.m.kernel && o.signal.Done? ==> Entered(o.m)
  {
    hide ExecOperation, ExecCopy, ExecJump, Entered, ProcStart, ProcEnd;
    match instr
    case Exec => OperationEnters(m, input, lo, hi);
    case Copy(src, dst) => CopyMode(m, src, dst);
    case Jump(cond, target) => JumpMode(m, cond, target);
    case _ =>
  }

  lemma CopyMode(m: Machine, src: Operand, dst: Operand)
    requires Valid(m)
    ensures ExecCopy(m, src, dst).m.kernel == m.kernel
  {
  }

  lemma JumpMode(m: Machine, cond: Condition, target: Operand)
    requires Valid(m)
    ensures ExecJump(m, cond, target).m.kernel == m.kernel
  {
  }

  lemma FaultStart(m: Machine, r: Machine, lo: int, hi: int)
    requires UserReady(m) && ProcStart(m) == lo && ProcEnd(m) == hi
    requires Confined(lo, hi, m, r) && r.status.Running? && !r.kernel
    ensures UserReady(r)
  {
    hide Stoi;
    SameBounds(m, r);
  }

  /** The last step of a process: it changes nothing outside the process. */
  lemma LeavingStep(m: Machine, u: Machine, p: Process, input: Inputs, floor: int)
    requires Active(m, u, p) && Leaves(m, input) && HW_TIMER < floor
    ensures var r := Step(m, input);
            Valid(r) && KeepsOutside(m, r, p, floor) && r.kernel && r.status.Running? && Entered(r)
  {
    hide Twins, Named, Alone, Core, Decode, Fetch, Stoi, Entered, TimerPhase, InstrNonNegative, ProcStart, ProcEnd;
    assert UserReady(m) && ProcStart(m) == p.lo && ProcEnd(m) == p.lo + p.len by { ActiveReady(m, u, p); }
    UserStep(m, input, p.lo, p.lo + p.len);
    LeavingInstr(m, input);
    var core := Core(m, Decode(Fetch(m).value), input);
    CoreEnters(m, Decode(Fetch(m).value), input);
    TickRaisesOnly(core);
    assert Step(m, input) == core;
    ConfinedOutside(m, core, p, floor);
  }

  lemma LeavingInstr(m: Machine, input: Inputs)
    requires Valid(m) && StepNonNegative(m, input) && Fetch(m).signal.Done?
    ensures InstrNonNegative(Ready(m, input), Decode(Fetch(m).value))
  {
    hide Fetch, Decode, Advance, Poll, InstrNonNegative;
    assert Ready(m, input) == Poll(Advance(m), input);
  }

  lemma ConfinedOutside(m: Machine, r: Machine, p: Process, floor: int)
    requires StepConfined(p.lo, p.lo + p.len, m, r) && HW_TIMER < floor
    ensures KeepsOutside(m, r, p, floor)
  {
  }

  /** The exit call rewrites the flag of the record, so the next process finds its own registers. */
  lemma ExitFlags(m: Machine, r: Machine)
    requires Valid(m) && Valid(r) && Entered(m)
    requires r.cells[INTERRUPT_DATA] == ReplaceColumn(m.cells[INTERRUPT_DATA], 3, " ", "1")
    ensures Flagged(r)
  {
    hide GetColumn, ReplaceColumn, PrintInt;
    var n :| CallRecord(m.cells[INTERRUPT_DATA], n);
    assert IsWord("0") && IsWord("1") && IsToken("0");
    PrintIsWord(n);
    JoinThree("0", PrintInt(n), "0");
    JoinThree("0", PrintInt(n), "1");
    ReplaceOfJoin(["0", PrintInt(n), "0"], 3, "1");
    assert ["0", PrintInt(n), "0"][2 := "1"] == ["0", PrintInt(n), "1"];
    assert FlaggedRecord(r.cells[INTERRUPT_DATA], "0", n);
  }
}
