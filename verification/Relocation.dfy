/** User programs cannot observe where their window lies: two machines that agree on the user
    view keep agreeing, step by step. The same relation, in its loose form, ignores what a
    preempted program is not promised: REG_F, LAST_KEY, the energy counter and the timer. */
module Relocation {
  import opened Wrappers
  import opened Text
  import opened Hardware
  import opened Isolation
  import opened Runs

  /** Registers that the timer handler does not save. */
  predicate Unsaved(i: int) {
    i == REG_F || i == LAST_KEY
  }

  /** The window lo..lo+len of `m`. */
  predicate HasWindow(m: Machine, lo: int, len: int) {
    && Valid(m) && ProcStart(m) == lo && ProcEnd(m) == lo + len
    && HW_TIMER < lo && USER_SPACE_END < len && lo + len <= Size(m)
  }

  /** Both machines show a user program the same registers, program counter and window; unless
      loose, also the same system cells that its steps depend on. */
  ghost predicate Twins(a: Machine, b: Machine, lo: int, lo2: int, len: int, loose: bool)
    ensures Twins(a, b, lo, lo2, len, loose) ==>
              && Valid(a) && Valid(b) && HW_TIMER < lo && HW_TIMER < lo2
              && HasWindow(a, lo, len) && HasWindow(b, lo2, len)
    ensures Twins(a, b, lo, lo2, len, loose) ==>
              && a.kernel == b.kernel && a.status == b.status
              && a.cells[PROGRAM_COUNTER] == b.cells[PROGRAM_COUNTER]
  {
    && HasWindow(a, lo, len) && HasWindow(b, lo2, len)
    && a.kernel == b.kernel && a.status == b.status
    && (forall i :: 1 <= i <= USER_SPACE_END && !(loose && Unsaved(i)) ==> a.cells[i] == b.cells[i])
    && a.cells[PROGRAM_COUNTER] == b.cells[PROGRAM_COUNTER]
    && (!loose ==> forall i :: i == SYS_ENERGY || SYSCALL_HANDLER <= i <= HW_TIMER ==> a.cells[i] == b.cells[i])
    && (forall j :: lo <= j <= lo + len && !(loose && lo < j <= lo + USER_SPACE_END) ==>
                      a.cells[j] == b.cells[j - lo + lo2])
  }

  predicate Readable(x: int, loose: bool) {
    x >= 0 && !(loose && Unsaved(x))
  }

  lemma TwinRead(a: Machine, b: Machine, lo: int, lo2: int, len: int, loose: bool, x: int)
    requires Twins(a, b, lo, lo2, len, loose) && !a.kernel && Readable(x, loose)
    ensures Read(a, x) == Read(b, x) && !Read(a, x).signal.Wild? && !Read(a, x).signal.CpuFault?
  {
    hide Stoi;
    if x > USER_SPACE_END || x == 0 {
      assert x + lo <= lo + len ==> a.cells[x + lo] == b.cells[x + lo2];
    }
  }

  lemma TwinWrite(a: Machine, b: Machine, lo: int, lo2: int, len: int, loose: bool, x: int, v: string)
    requires Twins(a, b, lo, lo2, len, loose) && !a.kernel && x >= 0
    ensures var p, q := Write(a, x, v), Write(b, x, v);
            p.signal == q.signal && Twins(p.m, q.m, lo, lo2, len, loose)
  {
    hide Stoi;
  }

  lemma TwinPut(a: Machine, b: Machine, lo: int, lo2: int, len: int, loose: bool, i: int, v: string)
    requires Twins(a, b, lo, lo2, len, loose)
    requires 1 <= i < lo && i < lo2 && i != PROC_START && i != PROC_END
    ensures Twins(Put(a, i, v), Put(b, i, v), lo, lo2, len, loose)
  {
  }

  /** The addresses an operand makes the step read: its pointer, and its target when it is a source. */
  predicate OperandOk(m: Machine, op: Operand, loose: bool, source: bool)
    requires Valid(m)
  {
    match op
    case Direct(x) => if source then Readable(x, loose) else x >= 0
    case Indirect(p) =>
      && Readable(p, loose)
      && var v := Stoi(Read(m, p).value);
         Read(m, p).signal.Done? && v.Some? ==> if source then Readable(v.value, loose) else v.value >= 0
    case _ => true
  }

  predicate InstrOk(m: Machine, instr: Instr, loose: bool)
    requires Valid(m)
  {
    match instr
    case Copy(src, dst) => OperandOk(m, src, loose, true) && OperandOk(m, dst, loose, false)
    case Jump(_, target) => OperandOk(m, target, loose, false)
    case _ => true
  }

  lemma TwinPointer(a: Machine, b: Machine, lo: int, lo2: int, len: int, loose: bool, op: Operand, source: bool)
    requires Twins(a, b, lo, lo2, len, loose) && !a.kernel && OperandOk(a, op, loose, source)
    ensures Pointer(a, op) == Pointer(b, op)
    ensures Pointer(a, op).signal.Done? && Pointer(a, op).addr.Some? ==>
              if source then Readable(Pointer(a, op).addr.value, loose) else Pointer(a, op).addr.value >= 0
  {
    if op.Indirect? {
      TwinRead(a, b, lo, lo2, len, loose, op.ptr);
    }
  }

  lemma TwinCopy(a: Machine, b: Machine, lo: int, lo2: int, len: int, loose: bool, src: Operand, dst: Operand)
    requires Twins(a, b, lo, lo2, len, loose) && !a.kernel && InstrOk(a, Copy(src, dst), loose)
    ensures var p, q := ExecCopy(a, src, dst), ExecCopy(b, src, dst);
            p.signal == q.signal && Twins(p.m, q.m, lo, lo2, len, loose) && !p.m.kernel
  {
    hide Read, Write, Pointer, Twins;
    TwinPointer(a, b, lo, lo2, len, loose, src, true);
    TwinPointer(a, b, lo, lo2, len, loose, dst, false);
    var s, d := Pointer(a, src), Pointer(a, dst);
    if s.signal.Done? && s.addr.Some? {
      TwinRead(a, b, lo, lo2, len, loose, s.addr.value);
    }
    if d.signal.Done? && d.addr.Some? {
      if src.Literal? {
        TwinWrite(a, b, lo, lo2, len, loose, d.addr.value, src.text);
      } else if s.signal.Done? && s.addr.Some? {
        TwinWrite(a, b, lo, lo2, len, loose, d.addr.value, Read(a, s.addr.value).value);
      }
    }
    CopyKeepsMode(a, src, dst);
  }

  lemma CopyKeepsMode(m: Machine, src: Operand, dst: Operand)
    requires Valid(m)
    ensures var o := ExecCopy(m, src, dst);
            o.m.kernel == m.kernel && o.m.status == m.status && o.m.disks == m.disks
  {
  }

  lemma TwinJump(a: Machine, b: Machine, lo: int, lo2: int, len: int, loose: bool, cond: Condition, target: Operand)
    requires Twins(a, b, lo, lo2, len, loose) && !a.kernel && InstrOk(a, Jump(cond, target), loose)
    ensures var p, q := ExecJump(a, cond, target), ExecJump(b, cond, target);
            p.signal == q.signal && Twins(p.m, q.m, lo, lo2, len, loose) && !p.m.kernel
  {
    hide Pointer, Twins, SetPc, Taken, OperandOk, PrintInt, HasWindow, Stoi;
    TwinPointer(a, b, lo, lo2, len, loose, target, false);
    TwinTaken(a, b, lo, lo2, len, loose, cond);
    var t := Pointer(a, target);
    if t.addr.Some? {
      TwinSetPc(a, b, lo, lo2, len, loose, t.addr.value - 1);
    }
  }

  lemma TwinTaken(a: Machine, b: Machine, lo: int, lo2: int, len: int, loose: bool, cond: Condition)
    requires Twins(a, b, lo, lo2, len, loose)
    ensures Taken(a, cond) == Taken(b, cond)
  {
  }

  lemma TwinSetPc(a: Machine, b: Machine, lo: int, lo2: int, len: int, loose: bool, pc: int)
    requires Twins(a, b, lo, lo2, len, loose)
    ensures Twins(SetPc(a, pc), SetPc(b, pc), lo, lo2, len, loose) && SetPc(a, pc).kernel == a.kernel
  {
    hide PrintInt;
  }

  lemma TwinAlu(a: Machine, b: Machine, lo: int, lo2: int, len: int, loose: bool, alu: Alu)
    requires Twins(a, b, lo, lo2, len, loose)
    ensures Twins(ApplyAlu(a, alu).m, ApplyAlu(b, alu).m, lo, lo2, len, loose)
  {
    hide Twins, HasWindow;
    var a1, b1 := Store(a, REG_RES, alu.res), Store(b, REG_RES, alu.res);
    TwinStore(a, b, lo, lo2, len, loose, REG_RES, alu.res);
    var a2, b2 := Store(a1, REG_BOOL, alu.flag), Store(b1, REG_BOOL, alu.flag);
    TwinStore(a1, b1, lo, lo2, len, loose, REG_BOOL, alu.flag);
    TwinStore(a2, b2, lo, lo2, len, loose, REG_ERROR, alu.err);
  }

  lemma TwinStore(a: Machine, b: Machine, lo: int, lo2: int, len: int, loose: bool, i: int, v: Option<string>)
    requires Twins(a, b, lo, lo2, len, loose) && 1 <= i <= USER_SPACE_END
    ensures Twins(Store(a, i, v), Store(b, i, v), lo, lo2, len, loose)
  {
    if v.Some? {
      TwinPut(a, b, lo, lo2, len, loose, i, v.value);
    }
  }

  /** Saving a register keeps the views equal. */
  lemma TwinMirror(a: Machine, b: Machine, lo: int, lo2: int, len: int, i: int)
    requires Twins(a, b, lo, lo2, len, false) && 1 <= i <= USER_SPACE_END
    ensures 1 <= i + lo <= Size(a) && 1 <= i + lo2 <= Size(b)
    ensures Twins(Put(a, i + lo, a.cells[i]), Put(b, i + lo2, b.cells[i]), lo, lo2, len, false)
  {
    hide Stoi;
  }

  lemma {:induction false} TwinBackup(a: Machine, b: Machine, lo: int, lo2: int, len: int, i: int)
    requires Twins(a, b, lo, lo2, len, false) && 1 <= i <= USER_SPACE_END + 1
    ensures var p, q := BackupRegisters(a, lo, i), BackupRegisters(b, lo2, i);
            p.signal.Done? && q.signal.Done? && Twins(p.m, q.m, lo, lo2, len, false)
    decreases USER_SPACE_END + 1 - i
  {
    hide Twins, HasWindow;
    if i <= USER_SPACE_END {
      TwinMirror(a, b, lo, lo2, len, i);
      TwinBackup(Put(a, i + lo, a.cells[i]), Put(b, i + lo2, b.cells[i]), lo, lo2, len, i + 1);
    }
  }

  lemma SameHandler(a: Machine, b: Machine, lo: int, lo2: int, len: int, handlerCell: int)
    requires Twins(a, b, lo, lo2, len, false) && SYSCALL_HANDLER <= handlerCell < INTERRUPT_DATA
    ensures handlerCell < |a.cells| && handlerCell < |b.cells| && a.cells[handlerCell] == b.cells[handlerCell]
  {
  }

  lemma TwinEnter(a: Machine, b: Machine, lo: int, lo2: int, len: int, kind: string, flag: string, handlerCell: int)
    requires Twins(a, b, lo, lo2, len, false) && SYSCALL_HANDLER <= handlerCell < INTERRUPT_DATA
    ensures var p, q := EnterHandler(a, kind, flag, handlerCell), EnterHandler(b, kind, flag, handlerCell);
            p.signal == q.signal && Twins(p.m, q.m, lo, lo2, len, false)
  {
    SameHandler(a, b, lo, lo2, len, handlerCell);
    if Stoi(a.cells[PROGRAM_COUNTER]).Some? {
      hide Twins, HasWindow, HandlerAddress, Stoi, PrintInt, InterruptRecord;
      var record := InterruptRecord(kind, Stoi(a.cells[PROGRAM_COUNTER]).value, flag);
      TwinPut(a, b, lo, lo2, len, false, INTERRUPT_DATA, record);
      var x, y := Put(a, INTERRUPT_DATA, record), Put(b, INTERRUPT_DATA, record);
      TwinMode(x, y, lo, lo2, len);
      if HandlerAddress(a.cells[handlerCell]).Some? {
        var h := HandlerAddress(a.cells[handlerCell]).value;
        TwinPut(x.(kernel := true), y.(kernel := true), lo, lo2, len, false, PROGRAM_COUNTER, PrintInt(h - 1));
      }
    }
  }

  lemma TwinMode(a: Machine, b: Machine, lo: int, lo2: int, len: int)
    requires Twins(a, b, lo, lo2, len, false)
    ensures Twins(a.(kernel := true), b.(kernel := true), lo, lo2, len, false)
  {
  }

  lemma TwinSysCall(a: Machine, b: Machine, lo: int, lo2: int, len: int)
    requires Twins(a, b, lo, lo2, len, false)
    ensures var p, q := ExecSysCall(a), ExecSysCall(b);
            p.signal == q.signal && Twins(p.m, q.m, lo, lo2, len, false)
  {
    var x, y := a.(kernel := true), b.(kernel := true);
    assert Twins(x, y, lo, lo2, len, false);
    TwinBackup(x, y, lo, lo2, len, 1);
    SaveIsBackup(x, lo, len);
    SaveIsBackup(y, lo2, len);
    TwinEnter(SaveUser(x).m, SaveUser(y).m, lo, lo2, len, "0", "0", SYSCALL_HANDLER);
  }

  lemma SaveIsBackup(m: Machine, lo: int, len: int)
    requires HasWindow(m, lo, len)
    ensures SaveUser(m) == BackupRegisters(m, lo, 1)
  {
  }

  /** The operation at hand, in the strict form; the loose form leaves system calls out and
      needs both energy counters to be readable. */
  lemma TwinPerform(a: Machine, b: Machine, lo: int, lo2: int, len: int, loose: bool, op: int, res: string,
                    err: string, res2: string, err2: string, input: Inputs)
    requires Twins(a, b, lo, lo2, len, loose) && !IsPrivileged(op) && !(loose && op == OP_SYSCALL)
    ensures var p, q := Perform(a, op, res, err, input), Perform(b, op, res2, err2, input);
            p.signal == q.signal && Twins(p.m, q.m, lo, lo2, len, loose)
  {
    hide Compute, ApplyAlu, ExecSysCall, Twins;
    assert forall i :: 1 <= i <= REG_D ==> a.cells[i] == b.cells[i] by { TwinRegisters(a, b, lo, lo2, len, loose); }
    if IsComputing(op) {
      var alu := Compute(op, a.cells[REG_A], a.cells[REG_B], a.cells[REG_C], a.cells[REG_D], input);
      TwinAlu(a, b, lo, lo2, len, loose, alu);
      AluSignalKept(a, alu);
      AluSignalKept(b, alu);
    } else if op == OP_SYSCALL {
      TwinSysCall(a, b, lo, lo2, len);
    }
  }

  lemma AluSignalKept(m: Machine, alu: Alu)
    requires Valid(m)
    ensures ApplyAlu(m, alu).signal == alu.signal
  {
  }

  lemma TwinRegisters(a: Machine, b: Machine, lo: int, lo2: int, len: int, loose: bool)
    requires Twins(a, b, lo, lo2, len, loose)
    ensures Valid(a) && Valid(b)
    ensures forall i :: 1 <= i <= USER_SPACE_END && !(loose && Unsaved(i)) ==> a.cells[i] == b.cells[i]
    ensures a.kernel == b.kernel && a.status == b.status && a.cells[PROGRAM_COUNTER] == b.cells[PROGRAM_COUNTER]
    ensures !loose ==> EnergyOf(a) == EnergyOf(b)
  {
  }

  lemma TwinCharge(a: Machine, b: Machine, lo: int, lo2: int, len: int, loose: bool, e: int, f: int, op: int)
    requires Twins(a, b, lo, lo2, len, loose) && (!loose ==> e == f)
    ensures Twins(Charge(a, e, op), Charge(b, f, op), lo, lo2, len, loose)
  {
  }

  predicate EnergyReadable(m: Machine)
    requires Valid(m)
  {
    EnergyOf(m).Some?
  }

  lemma TwinOperation(a: Machine, b: Machine, lo: int, lo2: int, len: int, loose: bool, input: Inputs)
    requires Twins(a, b, lo, lo2, len, loose) && !a.kernel
    requires loose ==> EnergyReadable(a) && EnergyReadable(b) && !CallsSystem(a)
    ensures var p, q := ExecOperation(a, input), ExecOperation(b, input);
            p.signal == q.signal && Twins(p.m, q.m, lo, lo2, len, loose)
  {
    hide Perform, Charge, Twins;
    TwinRegisters(a, b, lo, lo2, len, loose);
    if a.cells[REG_OP] != "" && Stoi(a.cells[REG_OP]).Some? && EnergyOf(a).Some? {
      var op := Stoi(a.cells[REG_OP]).value;
      if !IsPrivileged(op) {
        var e, f := EnergyOf(a).value, EnergyOf(b).value;
        TwinCharge(a, b, lo, lo2, len, loose, e, f, op);
        TwinPerform(Charge(a, e, op), Charge(b, f, op), lo, lo2, len, loose, op,
                    a.cells[REG_RES], a.cells[REG_ERROR], b.cells[REG_RES], b.cells[REG_ERROR], input);
      }
    }
  }

  lemma TwinExecute(a: Machine, b: Machine, lo: int, lo2: int, len: int, loose: bool, instr: Instr, input: Inputs)
    requires Twins(a, b, lo, lo2, len, loose) && !a.kernel && InstrOk(a, instr, loose)
    requires loose && instr.Exec? ==> EnergyReadable(a) && EnergyReadable(b) && !CallsSystem(a)
    ensures var p, q := Execute(a, instr, input), Execute(b, instr, input);
            p.signal == q.signal && Twins(p.m, q.m, lo, lo2, len, loose)
  {
    hide Twins, HasWindow, ExecOperation, ExecCopy, ExecJump;
    match instr
    case Exec => TwinOperation(a, b, lo, lo2, len, loose, input);
    case Copy(src, dst) => TwinCopy(a, b, lo, lo2, len, loose, src, dst);
    case Jump(cond, target) => TwinJump(a, b, lo, lo2, len, loose, cond, target);
    case _ =>
  }

  lemma TwinReady(a: Machine, b: Machine, lo: int, lo2: int, len: int, loose: bool, input: Inputs)
    requires Twins(a, b, lo, lo2, len, loose)
    ensures Twins(Ready(a, input), Ready(b, input), lo, lo2, len, loose)
    ensures Ready(a, input).kernel == a.kernel
    ensures Twins(Advance(a), Advance(b), lo, lo2, len, loose)
    ensures Advance(a).kernel == a.kernel
  {
    hide Twins, HasWindow;
    if Stoi(a.cells[PROGRAM_COUNTER]).Some? {
      TwinPut(a, b, lo, lo2, len, loose, PROGRAM_COUNTER, PrintInt(Stoi(a.cells[PROGRAM_COUNTER]).value + 1));
    }
    if input.key != 0 {
      TwinPut(Advance(a), Advance(b), lo, lo2, len, loose, LAST_KEY, PrintInt(input.key));
    }
  }

  lemma TwinFinish(p: Outcome, q: Outcome, lo: int, lo2: int, len: int, loose: bool)
    requires p.signal == q.signal && Twins(p.m, q.m, lo, lo2, len, loose)
    ensures Twins(Finish(p), Finish(q), lo, lo2, len, loose)
  {
  }

  lemma TwinHalt(a: Machine, b: Machine, lo: int, lo2: int, len: int)
    requires Twins(a, b, lo, lo2, len, false)
    ensures Twins(a.(status := Halted), b.(status := Halted), lo, lo2, len, false)
  {
  }

  lemma TwinFault(a: Machine, b: Machine, lo: int, lo2: int, len: int, code: string, input: Inputs)
    requires Twins(a, b, lo, lo2, len, false)
    ensures Twins(HandleFault(a, code, input), HandleFault(b, code, input), lo, lo2, len, false)
  {
    hide Twins, HasWindow, ExecOperation;
    if a.kernel {
      TwinHalt(a, b, lo, lo2, len);
    } else {
      TwinPut(a, b, lo, lo2, len, false, REG_A, code);
      var a1, b1 := Put(a, REG_A, code), Put(b, REG_A, code);
      TwinPut(a1, b1, lo, lo2, len, false, REG_E, "0");
      var a2, b2 := Put(a1, REG_E, "0"), Put(b1, REG_E, "0");
      TwinPut(a2, b2, lo, lo2, len, false, REG_OP, "25");
      var a3, b3 := Put(a2, REG_OP, "25"), Put(b2, REG_OP, "25");
      TwinOperation(a3, b3, lo, lo2, len, false, input);
      TwinFinish(ExecOperation(a3, input), ExecOperation(b3, input), lo, lo2, len, false);
    }
  }

  lemma TwinSettle(p: Outcome, q: Outcome, lo: int, lo2: int, len: int, input: Inputs)
    requires p.signal == q.signal && Twins(p.m, q.m, lo, lo2, len, false)
    ensures Twins(Settle(p, input), Settle(q, input), lo, lo2, len, false)
  {
    hide Twins, HasWindow, HandleFault;
    TwinFault(p.m, q.m, lo, lo2, len, "139", input);
    TwinFault(p.m, q.m, lo, lo2, len, "1", input);
    TwinFinish(p, q, lo, lo2, len, false);
  }

  lemma TwinCore(a: Machine, b: Machine, lo: int, lo2: int, len: int, instr: Instr, input: Inputs)
    requires Twins(a, b, lo, lo2, len, false) && !a.kernel && InstrOk(Ready(a, input), instr, false)
    ensures Twins(Core(a, instr, input), Core(b, instr, input), lo, lo2, len, false)
  {
    hide Twins, HasWindow, Execute, Settle, InstrOk, Advance, Poll;
    TwinReady(a, b, lo, lo2, len, false, input);
    if !instr.DebugMark? {
      var x, y := Ready(a, input), Ready(b, input);
      assert x == Poll(Advance(a), input) && y == Poll(Advance(b), input);
      TwinExecute(x, y, lo, lo2, len, false, instr, input);
      TwinSettle(Execute(x, instr, input), Execute(y, instr, input), lo, lo2, len, input);
    }
  }

  lemma TwinTick(a: Machine, b: Machine, lo: int, lo2: int, len: int)
    requires Twins(a, b, lo, lo2, len, false)
    ensures Twins(Tick(a), Tick(b), lo, lo2, len, false)
  {
    assert a.cells[HW_TIMER] == b.cells[HW_TIMER];
    if Stoi(a.cells[HW_TIMER]).Some? {
      hide Twins, HasWindow, EnterHandler;
      var t := Stoi(a.cells[HW_TIMER]).value;
      TwinPut(a, b, lo, lo2, len, false, HW_TIMER, PrintInt(t - 1));
      TwinPut(a, b, lo, lo2, len, false, HW_TIMER, "-1");
      var x, y := Put(a, HW_TIMER, "-1"), Put(b, HW_TIMER, "-1");
      TwinEnter(x, y, lo, lo2, len, "1", "1", INTERRUPT_HANDLER);
      TwinFinish(EnterHandler(x, "1", "1", INTERRUPT_HANDLER), EnterHandler(y, "1", "1", INTERRUPT_HANDLER),
                 lo, lo2, len, false);
    }
  }

  lemma TwinFetch(a: Machine, b: Machine, lo: int, lo2: int, len: int, loose: bool)
    requires Twins(a, b, lo, lo2, len, loose) && !a.kernel
    requires Stoi(a.cells[PROGRAM_COUNTER]).Some? ==> Readable(Stoi(a.cells[PROGRAM_COUNTER]).value + 1, loose)
    ensures Fetch(a) == Fetch(b) && !Fetch(a).signal.Wild?
  {
    hide Twins, HasWindow, Read;
    if Stoi(a.cells[PROGRAM_COUNTER]).Some? {
      var pc := Stoi(a.cells[PROGRAM_COUNTER]).value;
      TwinPut(a, b, lo, lo2, len, loose, PROGRAM_COUNTER, PrintInt(pc + 1));
      TwinRead(Advance(a), Advance(b), lo, lo2, len, loose, pc + 1);
    }
  }

  lemma NonNegativeIsOk(m: Machine, instr: Instr)
    requires Valid(m) && InstrNonNegative(m, instr)
    ensures InstrOk(m, instr, false)
  {
  }

  /** Relocation, one step: same user view before, same user view after, whether the step stays
      in user mode, traps, or stops the machine. */
  lemma TwinStep(a: Machine, b: Machine, lo: int, lo2: int, len: int, input: Inputs)
    requires Twins(a, b, lo, lo2, len, false) && !a.kernel && StepNonNegative(a, input)
    ensures Twins(Step(a, input), Step(b, input), lo, lo2, len, false)
  {
    hide Twins, HasWindow, Core, Fetch, Decode, Tick, InstrOk, InstrNonNegative, Advance;
    TwinFetch(a, b, lo, lo2, len, false);
    TwinReady(a, b, lo, lo2, len, false, input);
    var line := Fetch(a);
    if line.signal.Done? {
      var instr := Decode(line.value);
      assert Ready(a, input) == Poll(Advance(a), input);
      NonNegativeIsOk(Ready(a, input), instr);
      TwinCore(a, b, lo, lo2, len, instr, input);
      TwinTick(Core(a, instr, input), Core(b, instr, input), lo, lo2, len);
    } else {
      TwinFinish(Outcome(Advance(a), Thrown), Outcome(Advance(b), Thrown), lo, lo2, len, false);
    }
  }

  /** Relocation over whole runs: as long as the program stays in user mode, its twin in another
      window goes through the same views, and leaves user mode at the same step. */
  lemma {:induction false} RelocationBisimulation(a: Machine, b: Machine, lo: int, lo2: int, len: int, ins: seq<Inputs>)
    requires Twins(a, b, lo, lo2, len, false) && StaysUser(a, ins)
    ensures Twins(Run(a, ins), Run(b, ins), lo, lo2, len, false)
    ensures StaysUserMode(b, ins)
  {
    if ins != [] {
      hide Twins, HasWindow, Step, StepNonNegative, State, StaysUserMode, StaysUser;
      var n := |ins| - 1;
      StaysUserPrefix(a, ins);
      RelocationBisimulation(a, b, lo, lo2, len, ins[..n]);
      TwinStep(Run(a, ins[..n]), Run(b, ins[..n]), lo, lo2, len, ins[n]);
      StaysUserExtend(b, ins);
    } else {
      assert Run(a, ins) == a && Run(b, ins) == b;
    }
  }

  lemma StaysUserExtend(m: Machine, ins: seq<Inputs>)
    requires Valid(m) && ins != [] && StaysUserMode(m, ins[..|ins| - 1]) && !Run(m, ins[..|ins| - 1]).kernel
    ensures StaysUserMode(m, ins)
  {
    hide State;
    var n := |ins| - 1;
    forall k | 0 <= k < |ins|
      ensures !State(m, ins, k).kernel
    {
      if k < n {
        StatePrefix(m, ins, ins[..n], k);
        assert !State(m, ins[..n], k).kernel;
      } else {
        StateIsRun(m, ins, ins[..n]);
      }
    }
  }

  ghost predicate StaysUserMode(m: Machine, ins: seq<Inputs>)
    requires Valid(m)
  {
    forall k :: 0 <= k < |ins| ==> !State(m, ins, k).kernel
  }
}
