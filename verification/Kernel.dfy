/** The kernel's timer handler and dispatcher, updating the machine in place; proved against the
    functions of `Preemption.dfy`. */
module KernelObject {
  import opened Wrappers
  import opened Text
  import opened Columns
  import opened Hardware
  import opened Preemption
  import R = Ring
  import C = CpuObject

  class Kernel {
    const cpu: C.Cpu
    const vars: KernelVars

    constructor (cpu: C.Cpu, vars: KernelVars)
      ensures this.cpu == cpu && this.vars == vars
    {
      this.cpu := cpu;
      this.vars := vars;
    }

    /** The kernel has a cell for the control block. */
    ghost predicate HasSlot(slot: int) {
      cpu.Ready() && 0 <= slot < cpu.ram.data.Length
    }

    /** The registers of the running process have their place behind its start, and the kernel's
        variables lie in memory. */
    ghost predicate HasBackup(slot: int)
      reads cpu, cpu.ram, cpu.ram.data, cpu.disk
    {
      cpu.Ready() && CanSave(cpu.Value(), slot, vars)
    }

    /** Keeps REG_OP and REG_A to REG_E in the kernel's variables. */
    method KeepGeneral()
      requires cpu.Ready() && VarsBelow(vars, cpu.ram.data.Length)
      modifies cpu.ram.data
      ensures cpu.ram.data[..] == Preemption.KeepGeneral(old(cpu.ram.data[..]), vars.backup)
    {
      var cells, at := cpu.ram.data, vars.backup;
      var op, a, b, c, d, e := cells[REG_OP], cells[REG_A], cells[REG_B], cells[REG_C], cells[REG_D], cells[REG_E];
      cpu.ram.Set(at, op);
      cpu.ram.Set(at + 1, a);
      cpu.ram.Set(at + 2, b);
      cpu.ram.Set(at + 3, c);
      cpu.ram.Set(at + 4, d);
      cpu.ram.Set(at + 5, e);
    }

    /** Keeps RES, BOOL_RES and ERROR. */
    method KeepResults()
      requires cpu.Ready() && VarsBelow(vars, cpu.ram.data.Length)
      modifies cpu.ram.data
      ensures cpu.ram.data[..] == Preemption.KeepResults(old(cpu.ram.data[..]), vars.backup)
    {
      var cells, at := cpu.ram.data, vars.backup;
      var res, flag, error := cells[REG_RES], cells[REG_BOOL], cells[REG_ERROR];
      cpu.ram.Set(at + 6, res);
      cpu.ram.Set(at + 7, flag);
      cpu.ram.Set(at + 8, error);
    }

    /** REG_OP and REG_A to REG_E are in the kernel's variables. */
    ghost predicate HoldsGeneral()
      reads cpu, cpu.ram, cpu.ram.data, cpu.disk
    {
      && cpu.Ready() && VarsBelow(vars, cpu.ram.data.Length)
      && var cells, at := cpu.ram.data, vars.backup;
         && cells[at] == cells[REG_OP] && cells[at + 1] == cells[REG_A] && cells[at + 2] == cells[REG_B]
         && cells[at + 3] == cells[REG_C] && cells[at + 4] == cells[REG_D] && cells[at + 5] == cells[REG_E]
    }

    /** RES, BOOL_RES and ERROR are. */
    ghost predicate HoldsResults()
      reads cpu, cpu.ram, cpu.ram.data, cpu.disk
    {
      && cpu.Ready() && VarsBelow(vars, cpu.ram.data.Length)
      && var cells, at := cpu.ram.data, vars.backup;
         cells[at + 6] == cells[REG_RES] && cells[at + 7] == cells[REG_BOOL] && cells[at + 8] == cells[REG_ERROR]
    }

    /** Copies kept registers behind the start of the process. */
    method StoreGeneral(start: int)
      requires HoldsGeneral() && HW_TIMER < start && vars.backup + 9 <= start
               && start + USER_SPACE_END < cpu.ram.data.Length
      modifies cpu.ram.data
      ensures cpu.ram.data[..] == SaveGeneral(old(cpu.ram.data[..]), start)
    {
      var cells, at := cpu.ram.data, vars.backup;
      var op, a, b, c, d, e := cells[at], cells[at + 1], cells[at + 2], cells[at + 3], cells[at + 4], cells[at + 5];
      cpu.ram.Set(start + REG_A, a);
      cpu.ram.Set(start + REG_B, b);
      cpu.ram.Set(start + REG_C, c);
      cpu.ram.Set(start + REG_D, d);
      cpu.ram.Set(start + REG_E, e);
      cpu.ram.Set(start + REG_OP, op);
    }

    method StoreResults(start: int)
      requires HoldsResults() && HW_TIMER < start && vars.backup + 9 <= start
               && start + USER_SPACE_END < cpu.ram.data.Length
      modifies cpu.ram.data
      ensures cpu.ram.data[..] == SaveResults(old(cpu.ram.data[..]), start)
    {
      var cells, at := cpu.ram.data, vars.backup;
      var res, flag, error := cells[at + 6], cells[at + 7], cells[at + 8];
      cpu.ram.Set(start + REG_RES, res);
      cpu.ram.Set(start + REG_BOOL, flag);
      cpu.ram.Set(start + REG_ERROR, error);
    }

    /** Keeps the registers and copies them behind the start of the process. */
    method SaveRegisters(start: int)
      requires cpu.Ready() && VarsBelow(vars, cpu.ram.data.Length)
      requires HW_TIMER < start && vars.backup + 9 <= start && start + USER_SPACE_END < cpu.ram.data.Length
      modifies cpu.ram.data
      ensures cpu.ram.data[..] == SaveSlots(KeepRegisters(old(cpu.ram.data[..]), vars.backup), start)
    {
      hide Preemption.KeepGeneral, Preemption.KeepResults, SaveGeneral, SaveResults;
      var cells := cpu.ram.data;
      ghost var before := cells[..];
      KeepGeneral();
      KeepResults();
      KeptThere(before, vars.backup);
      StoredBeside(KeepRegisters(before, vars.backup), start, vars.backup);
      StoreGeneral(start);
      StoreResults(start);
    }

    lemma KeptThere(cells: seq<string>, at: int)
      requires USER_SPACE_END < at && at + 9 <= |cells|
      ensures var k := KeepRegisters(cells, at);
              && k[at] == k[7] && k[at + 1] == k[1] && k[at + 2] == k[2] && k[at + 3] == k[3] && k[at + 4] == k[4]
              && k[at + 5] == k[5] && k[at + 6] == k[8] && k[at + 7] == k[9] && k[at + 8] == k[10]
    {
    }

    lemma StoredBeside(cells: seq<string>, lo: int, at: int)
      requires HW_TIMER < at && at + 9 <= lo && lo + USER_SPACE_END < |cells|
      ensures forall c :: 0 <= c <= lo ==> SaveGeneral(cells, lo)[c] == cells[c]
    {
    }

    /** The registers as the handler's last operation leaves them. */
    method LeaveRegisters(former: string, pc: string, pcb: string, energy: int)
      requires cpu.Ready()
      modifies cpu.ram.data
      ensures cpu.ram.data[..] == HandlerLeaves(old(cpu.ram.data[..]), former, pc, pcb, energy)
    {
      hide PrintInt;
      cpu.ram.Set(REG_A, former);
      cpu.ram.Set(REG_B, "14");
      cpu.ram.Set(REG_C, " ");
      cpu.ram.Set(REG_D, pc);
      cpu.ram.Set(REG_OP, "16");
      cpu.ram.Set(REG_RES, pcb);
      cpu.ram.Set(REG_BOOL, "1");
      cpu.ram.Set(REG_ERROR, "");
      cpu.ram.Set(SYS_ENERGY, PrintInt(energy));
    }

    /** Saves the interrupted process: the registers are first kept in the kernel's variables,
        because storing them needs registers itself. Tells whether the record was a timer's. */
    method SaveContext(slot: int) returns (timer: bool)
      requires HasSlot(slot) && HasBackup(slot) && vars.backup + 9 <= ProcStart(cpu.Value())
      modifies cpu.ram.data
      ensures timer == ContextSaved(old(cpu.Value()), slot, vars).Some?
      ensures timer ==> cpu.Value() == ContextSaved(old(cpu.Value()), slot, vars).value
    {
      hide GetColumn, ReplaceColumn, Stoi, PrintInt, SaveSlots, KeepRegisters, HandlerLeaves;
      var cells := cpu.ram.data;
      ghost var before := cells[..];
      var energy := if cells[SYS_ENERGY] == "" then Some(0) else Stoi(cells[SYS_ENERGY]);
      if energy.None? {
        return false;
      }
      var start := BoundOf(cells[PROC_START]);
      cpu.ram.Set(HW_TIMER, "-1");
      SaveRegisters(start);
      ghost var kept := KeepRegisters(before[HW_TIMER := "-1"], vars.backup);
      var record := cells[INTERRUPT_DATA];
      RegistersKept(before[HW_TIMER := "-1"], vars.backup);
      SlotsSaved(kept, start);
      timer := GetColumn(record, 1, " ") == "1";
      if timer {
        var pc := GetColumn(record, 2, " ");
        var former := cells[slot];
        var pcb := ReplaceColumn(former, R.PC, " ", pc);
        ghost var saved := cells[..];
        LeaveRegisters(former, pc, pcb, energy.value + HANDLER_ENERGY);
        assert cells[..] == HandlerLeaves(saved, former, pc, pcb, energy.value + HANDLER_ENERGY);
        cpu.ram.Set(slot, pcb);
      }
    }

    /** The registers before the return. */
    method ReturnRegisters(record: string, pc: string, back: string, none: bool)
      requires cpu.Ready()
      modifies cpu.ram.data
      ensures cpu.ram.data[..] ==
                old(cpu.ram.data[..])[REG_A := record][REG_B := "2"][REG_C := " "][REG_D := pc][REG_OP := "26"]
                     [REG_RES := back]
                                     [REG_BOOL := if none then "1" else "0"][REG_ERROR := ""]
    {
      cpu.ram.Set(REG_A, record);
      cpu.ram.Set(REG_B, "2");
      cpu.ram.Set(REG_C, " ");
      cpu.ram.Set(REG_D, pc);
      cpu.ram.Set(REG_OP, "26");
      cpu.ram.Set(REG_RES, back);
      cpu.ram.Set(REG_BOOL, if none then "1" else "0");
      cpu.ram.Set(REG_ERROR, "");
    }

    /** Continues the process of a control block in user mode. */
    method Dispatch(slot: int, quantum: string) returns (signal: Signal)
      requires HasSlot(slot) && VarsBelow(vars, cpu.ram.data.Length)
      modifies cpu.ram, cpu.ram.data
      ensures Outcome(cpu.Value(), signal) == Dispatched(old(cpu.Value()), slot, quantum, vars)
    {
      hide GetColumn, ReplaceColumn, ExecSysReturn, PrintInt, Stoi;
      var cells := cpu.ram.data;
      var energy := if cells[SYS_ENERGY] == "" then Some(0) else Stoi(cells[SYS_ENERGY]);
      if energy.None? {
        return Thrown;
      }
      var pcb := cells[slot];
      var none := cells[INTERRUPT_DATA] == "";
      var record := if none then "0 0 1" else cells[INTERRUPT_DATA];
      var pc := GetColumn(pcb, R.PC, " ");
      var back := ReplaceColumn(record, 2, " ", pc);
      cpu.ram.Set(vars.current, PrintInt(slot));
      cpu.ram.Set(vars.record, pcb);
      cpu.ram.Set(vars.pc, pc);
      cpu.ram.Set(PROC_START, GetColumn(pcb, R.MEM_START, " "));
      cpu.ram.Set(PROC_END, GetColumn(pcb, R.MEM_END, " "));
      cpu.ram.Set(INTERRUPT_DATA, back);
      cpu.ram.Set(HW_TIMER, quantum);
      cpu.ram.Set(SYS_ENERGY, PrintInt(energy.value + DISPATCHER_ENERGY));
      ReturnRegisters(record, pc, back, none);
      assert cpu.Value() == Prepared(old(cpu.Value()), slot, quantum, vars, energy.value);
      cpu.ram.Set(SYS_ENERGY, PrintInt(energy.value + DISPATCHER_ENERGY + EnergyCost(OP_SYSRETURN)));
      cpu.ram.Set(REG_ERROR, "");
      signal := cpu.ExecuteSysReturn(back, "");
    }
  }
}
