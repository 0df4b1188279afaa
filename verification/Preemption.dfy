/** Preemption is transparent: whatever the timer handler, the dispatcher and other processes do
    in between, a process goes through the states of its uninterrupted run. Two registers are
    exempt, because the handler does not save them: REG_F and LAST_KEY. */
module Preemption {
  import opened Wrappers
  import opened Text
  import opened Columns
  import opened Hardware
  import opened Isolation
  import opened Syscalls
  import opened Relocation
  import R = Ring

  // ---- What the kernel does ----

  /** Variables of the kernel: nine in a row in which the handler keeps the registers, the pointer
      to the current control block, and the dispatcher's copies of that block and its PC. */
  datatype KernelVars = KernelVars(backup: int, current: int, record: int, pc: int)

  /** They lie between the system registers and cell `floor`, and apart. */
  predicate VarsBelow(v: KernelVars, floor: int) {
    && HW_TIMER < v.backup && v.backup + 9 <= floor && IsVar(v, v.current, floor) && IsVar(v, v.record, floor)
    && IsVar(v, v.pc, floor)
    && v.current != v.record && v.current != v.pc && v.record != v.pc
  }

  predicate IsVar(v: KernelVars, c: int, floor: int) {
    HW_TIMER < c < floor && !(v.backup <= c < v.backup + 9)
  }

  /** REG_OP and REG_A to REG_E in the kernel's variables. */
  function KeepGeneral(cells: seq<string>, at: int): (r: seq<string>)
    requires USER_SPACE_END < at && at + 9 <= |cells|
    ensures |r| == |cells|
  {
    cells[at := cells[7]][at + 1 := cells[1]][at + 2 := cells[2]][at + 3 := cells[3]][at + 4 := cells[4]]
         [at + 5 := cells[5]]
  }

  /** RES, BOOL_RES and ERROR behind them. */
  function KeepResults(cells: seq<string>, at: int): (r: seq<string>)
    requires USER_SPACE_END < at && at + 9 <= |cells|
    ensures |r| == |cells|
  {
    cells[at + 6 := cells[8]][at + 7 := cells[9]][at + 8 := cells[10]]
  }

  function KeepRegisters(cells: seq<string>, at: int): (r: seq<string>)
    requires USER_SPACE_END < at && at + 9 <= |cells|
    ensures |r| == |cells|
  {
    KeepResults(KeepGeneral(cells, at), at)
  }

  /** REG_A to REG_E and REG_OP behind the start of the process. */
  function SaveGeneral(cells: seq<string>, lo: int): (r: seq<string>)
    requires HW_TIMER < lo && lo + USER_SPACE_END < |cells|
    ensures |r| == |cells|
  {
    cells[lo + 1 := cells[1]][lo + 2 := cells[2]][lo + 3 := cells[3]][lo + 4 := cells[4]][lo + 5 := cells[5]]
         [lo + 7 := cells[7]]
  }

  /** RES, BOOL_RES and ERROR behind them. */
  function SaveResults(cells: seq<string>, lo: int): (r: seq<string>)
    requires HW_TIMER < lo && lo + USER_SPACE_END < |cells|
    ensures |r| == |cells|
  {
    cells[lo + 8 := cells[8]][lo + 9 := cells[9]][lo + 10 := cells[10]]
  }

  /** The registers that the timer handler stores behind the start of the process. */
  function SaveSlots(cells: seq<string>, lo: int): (r: seq<string>)
    requires HW_TIMER < lo && lo + USER_SPACE_END < |cells|
    ensures |r| == |cells|
  {
    SaveResults(SaveGeneral(cells, lo), lo)
  }

  /** Energy of the handler's operations: nine sums, two columns read, one comparison, one column
      replaced. */
  const HANDLER_ENERGY := 19

  predicate CanSave(m: Machine, slot: int, v: KernelVars) {
    && Valid(m) && HW_TIMER < ProcStart(m) && ProcStart(m) + USER_SPACE_END < |m.cells| && 0 <= slot < |m.cells|
    && VarsBelow(v, |m.cells|)
  }

  /** The timer handler up to the scheduler: timer off, registers kept and saved, PC noted in the
      control block at `slot`, and what its own work leaves in the registers. `None` is the kernel
      panic on a record that is not a timer interrupt, or an unreadable energy counter. */
  function ContextSaved(m: Machine, slot: int, v: KernelVars): (r: Option<Machine>)
    requires CanSave(m, slot, v)
    ensures r.Some? ==> |r.value.cells| == |m.cells|
  {
    if EnergyOf(m).None? || GetColumn(m.cells[INTERRUPT_DATA], 1, " ") != "1" then None
    else
      var saved := SaveSlots(KeepRegisters(m.cells[HW_TIMER := "-1"], v.backup), ProcStart(m));
      var pc := GetColumn(m.cells[INTERRUPT_DATA], 2, " ");
      var pcb := ReplaceColumn(saved[slot], R.PC, " ", pc);
      Some(m.(cells := HandlerLeaves(saved, saved[slot], pc, pcb, EnergyOf(m).value + HANDLER_ENERGY)[slot := pcb]))
  }

  /** The registers after the handler's last operation, the replacement of the PC column. */
  function HandlerLeaves(cells: seq<string>, before: string, pc: string, pcb: string, energy: int): (r: seq<string>)
    requires |cells| > MIN_RAM_SIZE
    ensures |r| == |cells|
  {
    cells[REG_A := before][REG_B := "14"][REG_C := " "][REG_D := pc][REG_OP := "16"][REG_RES := pcb][REG_BOOL := "1"]
         [REG_ERROR := ""][SYS_ENERGY := PrintInt(energy)]
  }

  /** Energy of the dispatcher's operations up to the system return: three columns read, one
      comparison, one column replaced. */
  const DISPATCHER_ENERGY := 13

  /** The machine just before the return to user mode: the pointer and the copies are set, and the
      registers are those of the last operation, the replacement of the return address. */
  function Prepared(m: Machine, slot: int, quantum: string, v: KernelVars, energy: int): (r: Machine)
    requires Valid(m) && 0 <= slot < |m.cells| && VarsBelow(v, |m.cells|)
    ensures |r.cells| == |m.cells|
  {
    var pcb := m.cells[slot];
    var none := m.cells[INTERRUPT_DATA] == "";
    var record := if none then "0 0 1" else m.cells[INTERRUPT_DATA];
    var pc := GetColumn(pcb, R.PC, " ");
    var back := ReplaceColumn(record, 2, " ", pc);
    m.(cells := m.cells[v.current := PrintInt(slot)][v.record := pcb][v.pc := pc]
                       [PROC_START := GetColumn(pcb, R.MEM_START, " ")][PROC_END := GetColumn(pcb, R.MEM_END, " ")]
                       [INTERRUPT_DATA := back][HW_TIMER := quantum][SYS_ENERGY := PrintInt(energy + DISPATCHER_ENERGY)]
                       [REG_A := record][REG_B := "2"][REG_C := " "][REG_D := pc][REG_OP := "26"][REG_RES := back]
                       [REG_BOOL := if none then "1" else "0"][REG_ERROR := ""])
  }

  /** The dispatcher for the control block at `slot`: bounds, return address and quantum, then
      the return to user mode. */
  function Dispatched(m: Machine, slot: int, quantum: string, v: KernelVars): (o: Outcome)
    requires Valid(m) && 0 <= slot < |m.cells| && VarsBelow(v, |m.cells|)
    ensures |o.m.cells| == |m.cells|
  {
    match EnergyOf(m)
    case None => Outcome(m, Thrown)
    case Some(energy) =>
      var p := Prepared(m, slot, quantum, v, energy);
      ExecSysReturn(Charge(p, energy + DISPATCHER_ENERGY, OP_SYSRETURN), p.cells[REG_RES], p.cells[REG_ERROR])
  }

  // ---- A process and its uninterrupted run ----

  /** A process: its block lo..lo+len and the cell of its control block. */
  datatype Process = Process(lo: int, len: int, slot: int)

  ghost predicate Placed(m: Machine, p: Process)
    ensures Placed(m, p) ==> Valid(m) && 0 <= p.slot < |m.cells|
  {
    && Valid(m) && HW_TIMER < p.lo && USER_SPACE_END < p.len && p.lo + p.len <= Size(m) && InInt(Size(m))
    && HW_TIMER < p.slot < |m.cells| && !(p.lo <= p.slot <= p.lo + p.len)
  }

  /** The control block names the block. */
  ghost predicate Named(pcb: string, p: Process) {
    && R.IsRecord(pcb)
    && GetColumn(pcb, R.MEM_START, " ") == PrintInt(p.lo) && GetColumn(pcb, R.MEM_END, " ") == PrintInt(p.lo + p.len)
  }

  /** The uninterrupted run: the same process alone, with the timer off. */
  ghost predicate Alone(u: Machine, p: Process) {
    && Valid(u) && u.status.Running? && !u.kernel && HasWindow(u, p.lo, p.len) && u.cells[HW_TIMER] == "-1"
  }

  /** The process runs on `m` and is in the state of its uninterrupted run. */
  ghost predicate Active(m: Machine, u: Machine, p: Process) {
    && Placed(m, p) && Alone(u, p) && Named(m.cells[p.slot], p)
    && Twins(u, m, p.lo, p.lo, p.len, true)
  }

  predicate SavedRegister(i: int) {
    1 <= i <= 10 && i != REG_F
  }

  /** The process is suspended on `m`, with the state of its uninterrupted run saved. */
  ghost predicate Frozen(m: Machine, u: Machine, p: Process) {
    && Placed(m, p) && Alone(u, p) && Named(m.cells[p.slot], p) && m.status.Running?
    && (forall i :: SavedRegister(i) ==> m.cells[p.lo + i] == u.cells[i])
    && (forall j :: p.lo <= j <= p.lo + p.len && !(p.lo < j <= p.lo + USER_SPACE_END) ==> m.cells[j] == u.cells[j])
    && PcSaved(m.cells[p.slot], u.cells[PROGRAM_COUNTER])
  }

  ghost predicate PcSaved(pcb: string, pc: string) {
    exists n: int :: InInt(n) && pc == PrintInt(n) && GetColumn(pcb, R.PC, " ") == PrintInt(n)
  }

  /** A step of the process that neither enters the kernel nor stops the machine, and does not
      read REG_F or LAST_KEY. */
  ghost predicate Quiet(u: Machine, input: Inputs)
    requires Valid(u)
  {
    && Stoi(u.cells[PROGRAM_COUNTER]).Some? && Readable(Stoi(u.cells[PROGRAM_COUNTER]).value + 1, true)
    && InInt(Stoi(u.cells[PROGRAM_COUNTER]).value + 1)
    && Fetch(u).signal.Done?
    && var instr, n := Decode(Fetch(u).value), Ready(u, input);
       && InstrOk(n, instr, true)
       && (instr.Exec? ==> EnergyReadable(n) && !CallsSystem(n))
       && Execute(n, instr, input).signal.Done?
  }

  // ---- Own steps ----

  lemma LooseNonNegative(m: Machine, instr: Instr)
    requires Valid(m) && InstrOk(m, instr, true)
    ensures InstrNonNegative(m, instr)
  {
  }

  lemma ReadyKeeps(m: Machine, input: Inputs)
    requires Valid(m)
    ensures Ready(m, input).kernel == m.kernel && Ready(m, input).status == m.status
    ensures EnergyReadable(Ready(m, input)) == EnergyReadable(m)
  {
  }

  /** A quiet step: both machines execute the same instruction with the same result. */
  lemma QuietCore(u: Machine, m: Machine, p: Process, input: Inputs)
    requires Twins(u, m, p.lo, p.lo, p.len, true) && !u.kernel && u.status.Running? && EnergyReadable(m)
             && Quiet(u, input)
    ensures Fetch(m) == Fetch(u)
    ensures var instr := Decode(Fetch(u).value);
            var cu, cm := Core(u, instr, input), Core(m, instr, input);
            Twins(cu, cm, p.lo, p.lo, p.len, true)
  {
    hide Twins, Execute, InstrOk, Decode, Fetch, CallsSystem, EnergyReadable, Stoi, Readable, Advance, Poll, Settle;
    TwinFetch(u, m, p.lo, p.lo, p.len, true);
    TwinReady(u, m, p.lo, p.lo, p.len, true, input);
    var instr := Decode(Fetch(u).value);
    var x, y := Ready(u, input), Ready(m, input);
    assert x == Poll(Advance(u), input) && y == Poll(Advance(m), input);
    ReadyKeeps(m, input);
    if !instr.DebugMark? {
      TwinExecute(x, y, p.lo, p.lo, p.len, true, instr, input);
      DoneSettles(Execute(x, instr, input), input);
      DoneSettles(Execute(y, instr, input), input);
    }
  }

  lemma DoneSettles(o: Outcome, input: Inputs)
    requires Valid(o.m) && o.signal.Done?
    ensures Settle(o, input) == o.m
  {
    hide HandleFault;
  }

  lemma TwinNonNegative(a: Machine, b: Machine, p: Process, instr: Instr)
    requires Twins(a, b, p.lo, p.lo, p.len, true) && !a.kernel && InstrOk(a, instr, true)
    ensures InstrNonNegative(b, instr)
  {
    hide Twins, Read, Stoi;
    if instr.Copy? {
      TwinOperand(a, b, p, instr.src, true);
      TwinOperand(a, b, p, instr.dst, false);
    } else if instr.Jump? {
      TwinOperand(a, b, p, instr.target, false);
    }
  }

  lemma TwinOperand(a: Machine, b: Machine, p: Process, op: Operand, source: bool)
    requires Twins(a, b, p.lo, p.lo, p.len, true) && !a.kernel && OperandOk(a, op, true, source)
    ensures NonNegative(b, op)
  {
    hide Twins, Read, Stoi;
    if op.Indirect? {
      TwinRead(a, b, p.lo, p.lo, p.len, true, op.ptr);
    }
  }

  lemma CoreIsExecute(m: Machine, instr: Instr, input: Inputs)
    requires Valid(m) && Execute(Ready(m, input), instr, input).signal.Done?
    ensures Core(m, instr, input) == if instr.DebugMark? then Advance(m) else Execute(Ready(m, input), instr, input).m
  {
    hide Execute, HandleFault, Advance, Poll;
    assert Ready(m, input) == Poll(Advance(m), input);
  }

  /** A quiet step stays in user mode and inside the user's cells. */
  lemma QuietStays(u: Machine, input: Inputs, instr: Instr, lo: int, hi: int)
    requires UserReady(u) && ProcStart(u) == lo && ProcEnd(u) == hi && InstrNonNegative(Ready(u, input), instr)
    requires Execute(Ready(u, input), instr, input).signal.Done? && !Calls(u, instr, input)
    ensures var core := Core(u, instr, input);
            core.status.Running? && !core.kernel && core.cells[HW_TIMER] == u.cells[HW_TIMER]
              && Confined(lo, hi, u, core)
  {
    hide Execute, Advance, Poll, ProcStart, ProcEnd, InstrNonNegative, Core;
    UserCore(u, instr, input, lo, hi);
    CoreIsExecute(u, instr, input);
    ReadyConfined(u, input, lo, hi);
    UserExecute(Ready(u, input), instr, input, lo, hi);
    AdvanceConfined(u, lo, hi);
  }

  /** With the timer off, the step of the uninterrupted run is its instruction. */
  lemma AloneStep(u: Machine, p: Process, input: Inputs)
    requires Alone(u, p) && Quiet(u, input)
    ensures Step(u, input) == Core(u, Decode(Fetch(u).value), input) && Alone(Step(u, input), p)
    ensures Confined(p.lo, p.lo + p.len, u, Step(u, input))
  {
    hide Execute, InstrOk, Decode, Fetch, Core, InstrNonNegative, Advance, Poll;
    var instr := Decode(Fetch(u).value);
    LooseNonNegative(Ready(u, input), instr);
    QuietStays(u, input, instr, p.lo, p.lo + p.len);
    TimerOff();
  }

  lemma TimerOff()
    ensures Stoi("-1") == Some(-1)
  {
    assert PrintInt(-1) == "-1";
    StoiPrint(-1);
  }

  lemma LooseTimer(a: Machine, b: Machine, p: Process, t: string)
    requires Twins(a, b, p.lo, p.lo, p.len, true)
    ensures Twins(a, Put(b, HW_TIMER, t), p.lo, p.lo, p.len, true)
  {
  }

  /** The instruction of a quiet step on the shared machine. */
  lemma SharedCore(m: Machine, u: Machine, p: Process, input: Inputs)
    requires Active(m, u, p) && Quiet(u, input) && EnergyReadable(m)
    ensures Fetch(m) == Fetch(u)
    ensures var core := Core(m, Decode(Fetch(u).value), input);
            Active(core, Step(u, input), p) && core.cells[INTERRUPT_HANDLER] == m.cells[INTERRUPT_HANDLER]
            && core.cells[HW_TIMER] == m.cells[HW_TIMER]
  {
    hide Twins, Execute, InstrOk, Decode, Fetch, Core, InstrNonNegative, Advance, Poll, Stoi, Readable,
      EnergyReadable, CallsSystem, Named;
    var instr := Decode(Fetch(u).value);
    AloneStep(u, p, input);
    QuietCore(u, m, p, input);
    TwinReady(u, m, p.lo, p.lo, p.len, true, input);
    TwinNonNegative(Ready(u, input), Ready(m, input), p, instr);
    SharedStays(m, u, p, input);
  }

  lemma SharedStays(m: Machine, u: Machine, p: Process, input: Inputs)
    requires Active(m, u, p) && Quiet(u, input) && EnergyReadable(m)
    requires InstrNonNegative(Ready(m, input), Decode(Fetch(u).value))
    ensures Confined(p.lo, p.lo + p.len, m, Core(m, Decode(Fetch(u).value), input))
    ensures Core(m, Decode(Fetch(u).value), input).cells[HW_TIMER] == m.cells[HW_TIMER]
  {
    hide Twins, Execute, Decode, Fetch, InstrNonNegative, Advance, Poll, Stoi, Named, Core, InstrOk, Readable;
    UserCore(m, Decode(Fetch(u).value), input, p.lo, p.lo + p.len);
  }

  lemma QuietFetches(u: Machine, input: Inputs)
    requires Valid(u) && Quiet(u, input)
    ensures Fetch(u).signal.Done?
  {
  }

  lemma ActiveRuns(m: Machine, u: Machine, p: Process)
    requires Active(m, u, p)
    ensures m.status.Running? && !m.kernel && u.status.Running? && !u.kernel
    ensures ProcStart(m) == p.lo
  {
  }

  // ---- Suspension ----

  lemma DecodedTarget(line: string, c: Condition, a: int)
    requires Decode(line) == Jump(c, Direct(a))
    ensures InInt(a)
  {
    hide ReadInt, StartsWith, ReadToken, ParseOperand;
    ParsedInInt(AfterFirstBlank(line));
  }

  lemma ParsedInInt(s: string)
    ensures ParseOperand(s).Direct? ==> InInt(ParseOperand(s).addr)
  {
    StoiInInt(s);
  }

  ghost predicate PcPrinted(m: Machine)
    requires Valid(m)
  {
    exists n: int :: InInt(n) && m.cells[PROGRAM_COUNTER] == PrintInt(n)
  }

  lemma CopyKeepsPc(m: Machine, src: Operand, dst: Operand)
    requires Valid(m) && !m.kernel && HW_TIMER < ProcStart(m) && InstrOk(m, Copy(src, dst), true)
    ensures ExecCopy(m, src, dst).m.cells[PROGRAM_COUNTER] == m.cells[PROGRAM_COUNTER]
  {
    hide ProcStart, Stoi;
  }

  lemma OperationKeepsPc(m: Machine, input: Inputs)
    requires Valid(m) && !m.kernel && !CallsSystem(m)
    ensures ExecOperation(m, input).m.cells[PROGRAM_COUNTER] == m.cells[PROGRAM_COUNTER]
  {
    hide Compute, Stoi;
  }

  lemma JumpPrintsPc(m: Machine, line: string)
    requires Valid(m) && Decode(line).Jump? && InstrOk(m, Decode(line), true) && PcPrinted(m)
    requires ExecJump(m, Decode(line).cond, Decode(line).target).signal.Done?
    ensures PcPrinted(ExecJump(m, Decode(line).cond, Decode(line).target).m)
  {
    hide Decode, Stoi, PrintInt, Read;
    var i := Decode(line);
    if i.target.Direct? {
      DecodedTarget(line, i.cond, i.target.addr);
      assert InInt(i.target.addr - 1);
    } else if i.target.Indirect? {
      StoiInInt(Read(m, i.target.ptr).value);
    }
  }

  lemma AdvancePrintsPc(m: Machine, input: Inputs)
    requires Valid(m) && Stoi(m.cells[PROGRAM_COUNTER]).Some? && InInt(Stoi(m.cells[PROGRAM_COUNTER]).value + 1)
    ensures PcPrinted(Advance(m)) && PcPrinted(Ready(m, input))
  {
    hide Stoi, PrintInt;
    var n := Stoi(m.cells[PROGRAM_COUNTER]).value + 1;
    assert Advance(m).cells[PROGRAM_COUNTER] == PrintInt(n);
  }

  /** After a quiet step PC holds a printed number. */
  lemma QuietPrintsPc(u: Machine, p: Process, input: Inputs)
    requires Alone(u, p) && Quiet(u, input)
    ensures Valid(Step(u, input)) && PcPrinted(Step(u, input))
  {
    hide ExecCopy, ExecJump, ExecOperation, InstrOk, Decode, Fetch, Core, Advance, Poll, Stoi, PrintInt, PcPrinted,
      CallsSystem;
    AloneStep(u, p, input);
    AdvancePrintsPc(u, input);
    var line := Fetch(u).value;
    var instr, n := Decode(line), Ready(u, input);
    CoreIsExecute(u, instr, input);
    ReadyConfined(u, input, p.lo, p.lo + p.len);
    match instr
    case Exec => OperationKeepsPc(n, input); SamePc(n, ExecOperation(n, input).m);
    case Copy(src, dst) => CopyKeepsPc(n, src, dst); SamePc(n, ExecCopy(n, src, dst).m);
    case Jump(_, _) => JumpPrintsPc(n, line);
    case Debug =>
    case DebugMark =>
    case BadCode =>
  }

  lemma SamePc(m: Machine, r: Machine)
    requires Valid(m) && Valid(r) && PcPrinted(m) && r.cells[PROGRAM_COUNTER] == m.cells[PROGRAM_COUNTER]
    ensures PcPrinted(r)
  {
  }

  /** The timer interrupt: registers and windows stay, the record names the program counter. */
  lemma Interrupted(core: Machine, u: Machine, p: Process) returns (n: int)
    requires Active(core, u, p) && PcPrinted(u) && Stoi(core.cells[HW_TIMER]) == Some(0)
    requires HandlerAddress(core.cells[INTERRUPT_HANDLER]).Some?
    ensures InInt(n) && u.cells[PROGRAM_COUNTER] == PrintInt(n)
    ensures var e := Tick(core);
            && |e.cells| == |core.cells| && e.status.Running? && e.kernel
            && e.cells[INTERRUPT_DATA] == InterruptRecord("1", n, "1")
            && forall i :: 0 <= i < |e.cells| && i !in {PROGRAM_COUNTER, INTERRUPT_DATA, HW_TIMER} ==>
                 e.cells[i] == core.cells[i]
  {
    hide Twins, Named, Alone, Stoi, HandlerAddress, PrintInt, InterruptRecord;
    n :| InInt(n) && u.cells[PROGRAM_COUNTER] == PrintInt(n);
    ActiveRuns(core, u, p);
    StoiPrint(n);
    EnterExact(Put(core, HW_TIMER, "-1"), "1", "1", INTERRUPT_HANDLER, n);
  }

  /** The columns of an interrupt record. */
  lemma RecordColumns(kind: string, n: int, flag: string, pc: int)
    requires IsWord(kind) && IsWord(flag)
    ensures GetColumn(InterruptRecord(kind, n, flag), 1, " ") == kind
    ensures GetColumn(InterruptRecord(kind, n, flag), 2, " ") == PrintInt(n)
    ensures ReplaceColumn(InterruptRecord(kind, n, flag), 2, " ", PrintInt(pc)) == InterruptRecord(kind, pc, flag)
  {
    hide GetColumn, ReplaceColumn, PrintInt;
    PrintIsWord(n);
    PrintIsWord(pc);
    JoinThree(kind, PrintInt(n), flag);
    JoinThree(kind, PrintInt(pc), flag);
    GetOfJoin([kind, PrintInt(n), flag], 1);
    GetOfJoin([kind, PrintInt(n), flag], 2);
    ReplaceOfJoin([kind, PrintInt(n), flag], 2, PrintInt(pc));
    assert [kind, PrintInt(n), flag][1 := PrintInt(pc)] == [kind, PrintInt(pc), flag];
  }

  lemma JoinThree(a: string, b: string, c: string)
    ensures Join([a, b, c], " ") == a + " " + b + " " + c
  {
    assert [a, b, c][..2] == [a, b] && [a, b][..1] == [a];
    assert Join([a, b], " ") == a + " " + b;
  }

  lemma NamedKeepsPc(pcb: string, p: Process, n: int)
    requires Named(pcb, p)
    ensures Named(ReplaceColumn(pcb, R.PC, " ", PrintInt(n)), p)
    ensures GetColumn(ReplaceColumn(pcb, R.PC, " ", PrintInt(n)), R.PC, " ") == PrintInt(n)
  {
    hide GetColumn, ReplaceColumn, PrintInt, Join;
    var ws: seq<string> :| R.RecordOf(pcb, ws);
    PrintIsWord(n);
    R.SetColumn(ws, R.PC, PrintInt(n));
    assert R.RecordOf(ReplaceColumn(pcb, R.PC, " ", PrintInt(n)), ws[R.PC - 1 := PrintInt(n)]);
  }

  /** From cell `floor` on, cells other than the process's block and its control block are the same. */
  ghost predicate KeepsOutside(m: Machine, r: Machine, p: Process, floor: int) {
    && |r.cells| == |m.cells|
    && forall c :: 0 <= c && floor <= c < |m.cells| && !(p.lo <= c <= p.lo + p.len) && c != p.slot ==>
         r.cells[c] == m.cells[c]
  }

  lemma SlotsSaved(cells: seq<string>, lo: int)
    requires HW_TIMER < lo && lo + USER_SPACE_END < |cells|
    ensures var r := SaveSlots(cells, lo);
            && (forall i :: SavedRegister(i) ==> r[lo + i] == cells[i])
            && forall c :: 0 <= c < |cells| && !(lo < c <= lo + USER_SPACE_END) ==> r[c] == cells[c]
  {
  }

  lemma RegistersKept(cells: seq<string>, at: int)
    requires USER_SPACE_END < at && at + 9 <= |cells|
    ensures forall c :: 0 <= c < |cells| && !(at <= c < at + 9) ==> KeepRegisters(cells, at)[c] == cells[c]
  {
  }

  /** What the handler changes. */
  lemma ContextCells(m: Machine, slot: int, lo: int, v: KernelVars, floor: int)
    requires CanSave(m, slot, v) && ProcStart(m) == lo && VarsBelow(v, floor) && floor <= lo && floor <= slot
    requires !(lo < slot <= lo + USER_SPACE_END) && EnergyOf(m).Some?
             && GetColumn(m.cells[INTERRUPT_DATA], 1, " ") == "1"
    ensures ContextSaved(m, slot, v).Some?
    ensures var r := ContextSaved(m, slot, v).value;
            && r.kernel == m.kernel && r.status == m.status && r.cells[INTERRUPT_DATA] == m.cells[INTERRUPT_DATA]
            && (forall i :: SavedRegister(i) ==> r.cells[lo + i] == m.cells[i])
            && (forall c :: floor <= c < |m.cells| && !(lo < c <= lo + USER_SPACE_END) && c != slot ==>
                 r.cells[c] == m.cells[c])
            && r.cells[slot] == ReplaceColumn(m.cells[slot], R.PC, " ", GetColumn(m.cells[INTERRUPT_DATA], 2, " "))
  {
    hide GetColumn, ReplaceColumn, PrintInt, ProcStart, EnergyOf, SaveSlots, KeepRegisters;
    RegistersKept(m.cells[HW_TIMER := "-1"], v.backup);
    SlotsSaved(KeepRegisters(m.cells[HW_TIMER := "-1"], v.backup), lo);
  }

  /** From cells c the handler has made r: the timer is off, the registers are in the kernel's
      variables from `at` on and behind the start of the process, the operations are paid for, and
      the registers hold the values of the last one. */
  ghost predicate HandlerLeft(c: seq<string>, r: seq<string>, slot: int, lo: int, at: int, energy: int)
    requires MIN_RAM_SIZE < |c| == |r| && HW_TIMER < at && at + 9 <= lo && lo + USER_SPACE_END < |c| && 0 <= slot < |c|
  {
    && r[HW_TIMER] == "-1" && r[SYS_ENERGY] == PrintInt(energy + 19)
    && r[at] == c[REG_OP] && r[at + 1] == c[REG_A] && r[at + 2] == c[REG_B] && r[at + 3] == c[REG_C]
    && r[at + 4] == c[REG_D] && r[at + 5] == c[REG_E] && r[at + 6] == c[REG_RES] && r[at + 7] == c[REG_BOOL]
    && r[at + 8] == c[REG_ERROR]
    && (forall i :: 1 <= i <= 10 && i != REG_F ==> r[lo + i] == c[i])
    && r[lo + REG_F] == c[lo + REG_F] && r[lo + LAST_KEY] == c[lo + LAST_KEY]
    && r[REG_A] == c[slot] && r[REG_B] == "14" && r[REG_C] == " " && r[REG_OP] == "16" && r[REG_BOOL] == "1"
    && r[REG_D] == GetColumn(c[INTERRUPT_DATA], 2, " ") && r[REG_RES] == r[slot] && r[REG_ERROR] == ""
    && r[slot] == ReplaceColumn(c[slot], R.PC, " ", GetColumn(c[INTERRUPT_DATA], 2, " "))
  }

  lemma HandlerCells(c: seq<string>, slot: int, lo: int, at: int, energy: int)
    requires MIN_RAM_SIZE < |c| && HW_TIMER < at && at + 9 <= lo && lo + USER_SPACE_END < |c|
    requires at + 9 <= slot < |c| && !(lo < slot <= lo + USER_SPACE_END)
    ensures var saved := SaveSlots(KeepRegisters(c[HW_TIMER := "-1"], at), lo);
            var pc := GetColumn(c[INTERRUPT_DATA], 2, " ");
            var pcb := ReplaceColumn(saved[slot], R.PC, " ", pc);
            HandlerLeft(c, HandlerLeaves(saved, saved[slot], pc, pcb, energy + 19)[slot := pcb], slot, lo, at, energy)
  {
    hide GetColumn, ReplaceColumn, PrintInt, KeepRegisters, SaveSlots, HandlerLeaves;
    KeptAndSaved(c[HW_TIMER := "-1"], at, lo);
    var saved := SaveSlots(KeepRegisters(c[HW_TIMER := "-1"], at), lo);
    var pc := GetColumn(c[INTERRUPT_DATA], 2, " ");
    LeftCells(saved, saved[slot], pc, ReplaceColumn(saved[slot], R.PC, " ", pc), energy + 19);
  }

  /** What the handler leaves, and when it panics: exactly on a record of another kind (or an
      unreadable energy counter). */
  lemma HandlerState(m: Machine, slot: int, lo: int, v: KernelVars, floor: int)
    requires CanSave(m, slot, v) && ProcStart(m) == lo && VarsBelow(v, floor) && floor <= lo && floor <= slot
    requires !(lo < slot <= lo + USER_SPACE_END)
    ensures ContextSaved(m, slot, v).None? <==>
              EnergyOf(m).None? || GetColumn(m.cells[INTERRUPT_DATA], 1, " ") != "1"
    ensures ContextSaved(m, slot, v).Some? ==>
              HandlerLeft(m.cells, ContextSaved(m, slot, v).value.cells, slot, lo, v.backup, EnergyOf(m).value)
  {
    hide GetColumn, ReplaceColumn, PrintInt, EnergyOf, ProcStart, KeepRegisters, SaveSlots, HandlerLeaves, HandlerLeft;
    if ContextSaved(m, slot, v).Some? {
      HandlerCells(m.cells, slot, lo, v.backup, EnergyOf(m).value);
    }
  }

  lemma KeptAndSaved(c: seq<string>, at: int, lo: int)
    requires HW_TIMER < at && at + 9 <= lo && lo + USER_SPACE_END < |c|
    ensures var r := SaveSlots(KeepRegisters(c, at), lo);
            && r[at] == c[7] && r[at + 1] == c[1] && r[at + 2] == c[2] && r[at + 3] == c[3] && r[at + 4] == c[4]
            && r[at + 5] == c[5] && r[at + 6] == c[8] && r[at + 7] == c[9] && r[at + 8] == c[10]
            && (forall i :: 1 <= i <= 10 && i != REG_F ==> r[lo + i] == c[i])
            && forall i :: 0 <= i < |c| && !(at <= i < at + 9) && (i <= lo || i > lo + 10 || i == lo + REG_F) ==>
                             r[i] == c[i]
  {
    hide KeepRegisters, SaveSlots;
    KeptCells(c, at);
    SavedCells(KeepRegisters(c, at), lo);
  }

  lemma LeftCells(c: seq<string>, before: string, pc: string, pcb: string, energy: int)
    requires |c| > MIN_RAM_SIZE
    ensures var r := HandlerLeaves(c, before, pc, pcb, energy);
            && r[REG_A] == before && r[REG_B] == "14" && r[REG_C] == " " && r[REG_D] == pc && r[REG_OP] == "16"
            && r[REG_RES] == pcb && r[REG_BOOL] == "1" && r[REG_ERROR] == "" && r[SYS_ENERGY] == PrintInt(energy)
            && forall i :: SYS_ENERGY < i < |c| ==> r[i] == c[i]
  {
    hide PrintInt;
  }

  lemma KeptCells(c: seq<string>, at: int)
    requires USER_SPACE_END < at && at + 9 <= |c|
    ensures var k := KeepRegisters(c, at);
            && k[at] == c[7] && k[at + 1] == c[1] && k[at + 2] == c[2] && k[at + 3] == c[3] && k[at + 4] == c[4]
            && k[at + 5] == c[5] && k[at + 6] == c[8] && k[at + 7] == c[9] && k[at + 8] == c[10]
            && forall i :: 0 <= i < |c| && !(at <= i < at + 9) ==> k[i] == c[i]
  {
  }

  lemma SavedCells(c: seq<string>, lo: int)
    requires HW_TIMER < lo && lo + USER_SPACE_END < |c|
    ensures var r := SaveSlots(c, lo);
            && (forall i :: 1 <= i <= 10 && i != REG_F ==> r[lo + i] == c[i])
            && forall i :: 0 <= i < |c| && (i <= lo || i > lo + 10 || i == lo + REG_F) ==> r[i] == c[i]
  {
  }

  /** A saved context is a suspended process. */
  lemma SavedIsFrozen(core: Machine, r: Machine, u: Machine, p: Process, n: int)
    requires Active(core, u, p) && |r.cells| == |core.cells| && r.status.Running?
    requires InInt(n) && u.cells[PROGRAM_COUNTER] == PrintInt(n)
    requires forall i :: SavedRegister(i) ==> r.cells[p.lo + i] == core.cells[i]
    requires forall c :: p.lo <= c <= p.lo + p.len && !(p.lo < c <= p.lo + USER_SPACE_END) ==>
               r.cells[c] == core.cells[c]
    requires Named(r.cells[p.slot], p) && GetColumn(r.cells[p.slot], R.PC, " ") == PrintInt(n)
    ensures Frozen(r, u, p)
  {
    hide Named, PrintInt, GetColumn, HasWindow;
  }

  /** Suspension: after the timer interrupt and the handler, the state of the process is saved. */
  lemma Suspended(core: Machine, u: Machine, p: Process, v: KernelVars, floor: int)
    requires Active(core, u, p) && PcPrinted(u) && Stoi(core.cells[HW_TIMER]) == Some(0) && EnergyReadable(core)
    requires HandlerAddress(core.cells[INTERRUPT_HANDLER]).Some? && VarsBelow(v, floor) && floor <= p.lo
             && floor <= p.slot
    ensures var e := Tick(core);
            && e.kernel && |e.cells| == |core.cells| && CanSave(e, p.slot, v) && ContextSaved(e, p.slot, v).Some?
            && var r := ContextSaved(e, p.slot, v).value;
               Frozen(r, u, p) && r.kernel && Flagged(r) && KeepsOutside(core, r, p, floor)
  {
    hide Tick, Named, EnergyReadable, Stoi, HandlerAddress, PrintInt, InterruptRecord, GetColumn, ReplaceColumn,
      Flagged, HasWindow, ContextSaved, ProcStart, PcPrinted, Frozen, Twins;
    var n := Interrupted(core, u, p);
    var e := Tick(core);
    assert ProcStart(e) == p.lo by { SameStart(core, e); StartOf(core, u, p); }
    assert EnergyOf(e).Some? by { SameEnergyOf(core, e); }
    assert IsWord("1");
    RecordColumns("1", n, "1", n);
    NamedKeepsPc(core.cells[p.slot], p, n);
    ContextCells(e, p.slot, p.lo, v, floor);
    var r := ContextSaved(e, p.slot, v).value;
    TimerRecordFlagged(r, n);
    SavedIsFrozen(core, r, u, p, n);
  }

  lemma StartOf(m: Machine, u: Machine, p: Process)
    requires Active(m, u, p)
    ensures ProcStart(m) == p.lo
  {
  }

  lemma SameEnergyOf(m: Machine, r: Machine)
    requires Valid(m) && Valid(r) && m.cells[SYS_ENERGY] == r.cells[SYS_ENERGY] && EnergyReadable(m)
    ensures EnergyOf(r).Some?
  {
  }

  lemma TimerRecordFlagged(m: Machine, n: int)
    requires Valid(m) && m.cells[INTERRUPT_DATA] == InterruptRecord("1", n, "1")
    ensures Flagged(m)
  {
    OneIsToken();
    assert FlaggedRecord(m.cells[INTERRUPT_DATA], "1", n);
  }

  // ---- Resumption ----

  /** The interrupt record tells the CPU to restore all registers, or there is none. */
  ghost predicate Flagged(m: Machine)
    requires Valid(m)
  {
    m.cells[INTERRUPT_DATA] == "" || exists kind: string, n: int :: FlaggedRecord(m.cells[INTERRUPT_DATA], kind, n)
  }

  ghost predicate FlaggedRecord(text: string, kind: string, n: int) {
    IsWord(kind) && IsToken(kind) && text == InterruptRecord(kind, n, "1")
  }

  lemma DefaultRecord()
    ensures FlaggedRecord("0 0 1", "0", 0)
  {
    assert PrintInt(0) == "0";
  }

  lemma PreparedRecord(m: Machine, p: Process, quantum: string, v: KernelVars, e: int, n: int) returns (kind: string)
    requires Placed(m, p) && Flagged(m) && GetColumn(m.cells[p.slot], R.PC, " ") == PrintInt(n)
             && VarsBelow(v, |m.cells|)
    ensures IsToken(kind) && Prepared(m, p.slot, quantum, v, e).cells[INTERRUPT_DATA] == InterruptRecord(kind, n, "1")
  {
    hide GetColumn, ReplaceColumn, PrintInt, InterruptRecord;
    DefaultRecord();
    var record := if m.cells[INTERRUPT_DATA] == "" then "0 0 1" else m.cells[INTERRUPT_DATA];
    var k: string, before: int :| FlaggedRecord(record, k, before);
    assert FlaggedRecord(record, k, before);
    kind := k;
    assert IsWord("1");
    RecordColumns(kind, before, "1", n);
  }

  lemma PreparedBounds(m: Machine, p: Process, quantum: string, v: KernelVars, e: int)
    requires Placed(m, p) && Named(m.cells[p.slot], p) && VarsBelow(v, |m.cells|)
    ensures var k := Prepared(m, p.slot, quantum, v, e); ProcStart(k) == p.lo && ProcEnd(k) == p.lo + p.len
  {
    hide GetColumn, ReplaceColumn, PrintInt, Stoi;
    StoiPrint(p.lo);
    StoiPrint(p.lo + p.len);
  }

  /** The dispatcher changes registers and the kernel's variables. */
  lemma PreparedCells(m: Machine, slot: int, quantum: string, v: KernelVars, e: int, floor: int)
    requires Valid(m) && 0 <= slot < |m.cells| && VarsBelow(v, floor) && floor <= |m.cells|
    ensures var k := Charge(Prepared(m, slot, quantum, v, e), e + DISPATCHER_ENERGY, OP_SYSRETURN);
            && k.kernel == m.kernel && k.status == m.status && k.disks == m.disks
            && k.cells[INTERRUPT_HANDLER] == m.cells[INTERRUPT_HANDLER]
            && k.cells[SYSCALL_HANDLER] == m.cells[SYSCALL_HANDLER]
            && k.cells[HW_TIMER] == quantum && k.cells[SYS_ENERGY] == PrintInt(e + 18)
            && k.cells[v.current] == PrintInt(slot) && k.cells[v.record] == m.cells[slot]
            && k.cells[v.pc] == GetColumn(m.cells[slot], R.PC, " ")
            && (forall c :: c in {PROC_START, PROC_END, INTERRUPT_DATA} ==>
                  k.cells[c] == Prepared(m, slot, quantum, v, e).cells[c])
            && forall c :: floor <= c < |m.cells| ==> k.cells[c] == m.cells[c]
  {
    hide GetColumn, ReplaceColumn, PrintInt;
  }

  /** The return to the PC of the control block, with the registers of the block. */
  lemma Returned(m: Machine, p: Process, quantum: string, v: KernelVars, floor: int, n: int)
    requires Placed(m, p) && Named(m.cells[p.slot], p) && Flagged(m) && EnergyOf(m).Some?
    requires GetColumn(m.cells[p.slot], R.PC, " ") == PrintInt(n) && VarsBelow(v, floor) && floor <= |m.cells|
    ensures var o := Dispatched(m, p.slot, quantum, v);
            && o.signal.Done? && !o.m.kernel && o.m.status == m.status && o.m.cells[PROGRAM_COUNTER] == PrintInt(n)
            && ProcStart(o.m) == p.lo && ProcEnd(o.m) == p.lo + p.len
            && (forall i :: 1 <= i <= USER_SPACE_END && floor <= p.lo ==>
                  o.m.cells[i] == m.cells[p.lo + i])
            && o.m.cells[INTERRUPT_HANDLER] == m.cells[INTERRUPT_HANDLER] && o.m.cells[HW_TIMER] == quantum
            && (forall c :: floor <= c < |m.cells| ==> o.m.cells[c] == m.cells[c])
            && o.m.cells[v.current] == PrintInt(p.slot) && o.m.cells[v.record] == m.cells[p.slot]
            && o.m.cells[v.pc] == PrintInt(n) && o.m.cells[SYS_ENERGY] == PrintInt(EnergyOf(m).value + 18)
  {
    hide GetColumn, ReplaceColumn, PrintInt, InterruptRecord, Stoi, ExecSysReturn, Named, IsToken, Prepared, Charge,
      Flagged, ProcStart, ProcEnd;
    var e := EnergyOf(m).value;
    var prepared := Prepared(m, p.slot, quantum, v, e);
    var k := Charge(prepared, e + DISPATCHER_ENERGY, OP_SYSRETURN);
    var kind := PreparedRecord(m, p, quantum, v, e, n);
    PreparedBounds(m, p, quantum, v, e);
    PreparedCells(m, p.slot, quantum, v, e, floor);
    SameBounds(prepared, k);
    var o := Dispatched(m, p.slot, quantum, v);
    assert o == ExecSysReturn(k, prepared.cells[REG_RES], prepared.cells[REG_ERROR]);
    assert IsToken("1") by { OneIsToken(); }
    ExitRestores(k, p.lo, prepared.cells[REG_RES], prepared.cells[REG_ERROR], kind, n, "1");
    SameBounds(k, o.m);
  }

  /** Resumption: dispatching a suspended process continues it in its saved state. */
  lemma ResumedActive(m: Machine, u: Machine, p: Process, quantum: string, v: KernelVars, floor: int)
    requires Frozen(m, u, p) && Flagged(m) && EnergyOf(m).Some? && VarsBelow(v, floor) && floor <= p.lo
             && floor <= p.slot
    ensures floor <= |m.cells|
    ensures var o := Dispatched(m, p.slot, quantum, v);
            && o.signal.Done? && Active(o.m, u, p) && o.m.cells[INTERRUPT_HANDLER] == m.cells[INTERRUPT_HANDLER]
            && o.m.cells[HW_TIMER] == quantum && o.m.cells[v.current] == PrintInt(p.slot)
            && o.m.cells[v.record] == m.cells[p.slot] && o.m.cells[v.pc] == u.cells[PROGRAM_COUNTER]
            && o.m.cells[SYS_ENERGY] == PrintInt(EnergyOf(m).value + 18)
            && forall c :: floor <= c < |m.cells| ==> o.m.cells[c] == m.cells[c]
  {
    hide GetColumn, PrintInt, Stoi, Dispatched, Named, Flagged, BoundOf;
    var n: int :| InInt(n) && u.cells[PROGRAM_COUNTER] == PrintInt(n)
      && GetColumn(m.cells[p.slot], R.PC, " ") == PrintInt(n);
    Returned(m, p, quantum, v, floor, n);
  }

  lemma OneIsToken()
    ensures IsToken("1")
  {
  }

  /** What the relation says for a running process: same registers but REG_F and LAST_KEY, same
      PC, same block but for the cells that back registers up. */
  lemma RunningView(m: Machine, u: Machine, p: Process)
    requires Active(m, u, p)
    ensures forall i :: SavedRegister(i) ==> m.cells[i] == u.cells[i]
    ensures m.cells[PROGRAM_COUNTER] == u.cells[PROGRAM_COUNTER] && !m.kernel
    ensures forall j :: p.lo <= j <= p.lo + p.len && !(p.lo < j <= p.lo + USER_SPACE_END) ==> m.cells[j] == u.cells[j]
  {
    hide HasWindow;
  }

  /** The uninterrupted run of a suspended process: its saved state, loaded, with the timer off. */
  function AloneFrom(m: Machine, p: Process): (u: Machine)
    requires Placed(m, p)
    ensures |u.cells| == |m.cells|
  {
    var regs := [m.cells[0]] + m.cells[p.lo + 1..p.lo + USER_SPACE_END + 1] + m.cells[USER_SPACE_END + 1..];
    m.(kernel := false,
       cells := regs[PROGRAM_COUNTER := GetColumn(m.cells[p.slot], R.PC, " ")]
                    [PROC_START := PrintInt(p.lo)][PROC_END := PrintInt(p.lo + p.len)][HW_TIMER := "-1"])
  }

  /** Every suspended process has one. */
  lemma SuspendedHasRun(m: Machine, p: Process, n: int)
    requires Placed(m, p) && m.status.Running? && Named(m.cells[p.slot], p)
    requires InInt(n) && GetColumn(m.cells[p.slot], R.PC, " ") == PrintInt(n)
    ensures Frozen(m, AloneFrom(m, p), p)
  {
    hide GetColumn, PrintInt, Stoi, Named;
    var u := AloneFrom(m, p);
    StoiPrint(p.lo);
    StoiPrint(p.lo + p.len);
    assert PcSaved(m.cells[p.slot], u.cells[PROGRAM_COUNTER]);
  }

  /** The timer check at the end of a step: the process goes on, or is suspended. */
  lemma TickSettles(core: Machine, u: Machine, p: Process, v: KernelVars, floor: int)
    requires Active(core, u, p) && PcPrinted(u) && EnergyReadable(core)
             && HandlerAddress(core.cells[INTERRUPT_HANDLER]).Some?
    requires VarsBelow(v, floor) && floor <= p.lo && floor <= p.slot
    ensures var e := TimerPhase(core);
            && Valid(e) && |e.cells| == |core.cells| && (e.kernel <==> Stoi(core.cells[HW_TIMER]) == Some(0))
            && (!e.kernel ==> Active(e, u, p) && KeepsOutside(core, e, p, floor))
            && (e.kernel ==>
                  && CanSave(e, p.slot, v) && ContextSaved(e, p.slot, v).Some?
                  && var r := ContextSaved(e, p.slot, v).value;
                     Frozen(r, u, p) && r.kernel && Flagged(r) && KeepsOutside(core, r, p, floor))
  {
    hide Twins, Named, Alone, EnergyReadable, Stoi, HandlerAddress, PcPrinted, Frozen, Flagged, ContextSaved,
      PrintInt, EnterHandler, ProcStart;
    ActiveRuns(core, u, p);
    if Stoi(core.cells[HW_TIMER]) == Some(0) {
      Suspended(core, u, p, v, floor);
    } else if Stoi(core.cells[HW_TIMER]).Some? {
      LooseTimer(u, core, p, PrintInt(Stoi(core.cells[HW_TIMER]).value - 1));
    }
  }
}
