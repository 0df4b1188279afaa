/** System calls: entering the kernel saves the user program, returning restores it. */
module Syscalls {
  import opened Wrappers
  import opened Text
  import opened Columns
  import opened Hardware
  import opened Isolation
  import opened Runs

  /** Registers 1-11 of `r` are stored in the backup area of `m` that starts at `offset`. */
  ghost predicate Saved(m: Machine, offset: int, r: Machine) {
    && 0 <= offset && offset + USER_SPACE_END < |m.cells| && USER_SPACE_END < |r.cells|
    && forall j :: offset < j <= offset + USER_SPACE_END ==> m.cells[j] == r.cells[j - offset]
  }

  lemma {:induction false} BackupSaves(m: Machine, offset: int, i: int)
    requires Valid(m) && 1 <= i <= USER_SPACE_END + 1
    requires HW_TIMER < offset && offset + USER_SPACE_END <= Size(m)
    ensures var o := BackupRegisters(m, offset, i);
            o.signal.Done? && forall j :: offset + i <= j <= offset + USER_SPACE_END ==>
                o.m.cells[j] == m.cells[j - offset]
    decreases USER_SPACE_END + 1 - i
  {
    if i <= USER_SPACE_END {
      var n := Put(m, i + offset, m.cells[i]);
      BackupSaves(n, offset, i + 1);
      BackupFrame(n, offset, i + 1);
    }
  }

  lemma {:induction false} RestoreLoads(m: Machine, offset: int, i: int)
    requires Valid(m) && 1 <= i <= USER_SPACE_END + 1
    requires HW_TIMER < offset && offset + USER_SPACE_END <= Size(m)
    ensures var o := RestoreRegisters(m, offset, i);
            o.signal.Done? && forall k :: i <= k <= USER_SPACE_END ==> o.m.cells[k] == m.cells[offset + k]
    decreases USER_SPACE_END + 1 - i
  {
    if i <= USER_SPACE_END {
      var n := Put(m, i, m.cells[i + offset]);
      RestoreLoads(n, offset, i + 1);
      RestoreFrame(n, offset, i + 1);
    }
  }

  ghost predicate IsToken(w: string) {
    w != "" && forall i :: 0 <= i < |w| ==> !IsSpace(w[i])
  }

  lemma FirstToken(w: string, rest: string)
    requires IsToken(w) && (rest == "" || IsSpace(rest[0]))
    ensures TokenOr(w + rest) == (w, rest)
  {
    assert SkipSpaces(w + rest) == w + rest;
    NonSpaceRunOf(w, rest);
    assert (w + rest)[..|w|] == w && (w + rest)[|w|..] == rest;
  }

  lemma NextToken(w: string, rest: string)
    requires IsToken(w) && (rest == "" || IsSpace(rest[0]))
    ensures TokenOr(" " + w + rest) == (w, rest)
  {
    ReadTokenOf(w, rest);
  }

  lemma PrintIsToken(n: int)
    ensures IsToken(PrintInt(n))
  {
    PrintChars(n);
  }

  /** The kernel's parse of an interrupt record gives back its three columns. */
  lemma RecordParses(kind: string, pc: int, flag: string)
    requires IsToken(kind) && IsToken(flag)
    ensures var k := TokenOr(InterruptRecord(kind, pc, flag));
            var p := TokenOr(k.1);
            k.0 == kind && p.0 == PrintInt(pc) && TokenOr(p.1).0 == flag
  {
    hide TokenOr, IsToken, PrintInt, IsSpace;
    var p := PrintInt(pc);
    PrintIsToken(pc);
    assert IsSpace(' ') by { BlankIsSpace(); }
    FirstToken(kind, " " + p + " " + flag);
    assert InterruptRecord(kind, pc, flag) == kind + (" " + p + " " + flag);
    NextToken(p, " " + flag);
    assert " " + p + " " + flag == " " + p + (" " + flag);
    NextToken(flag, "");
    assert " " + flag + "" == " " + flag;
  }

  lemma BlankIsSpace()
    ensures IsSpace(' ')
  {
  }

  /** The entry side: the window receives registers 1-11 and the record names the user PC. */
  lemma EntrySaves(m: Machine, lo: int, pc: int)
    requires UserReady(m) && ProcStart(m) == lo
    requires Stoi(m.cells[PROGRAM_COUNTER]) == Some(pc) && HandlerAddress(m.cells[SYSCALL_HANDLER]).Some?
    ensures var o := ExecSysCall(m);
            && o.signal.Done? && o.m.kernel && o.m.status.Running? && Saved(o.m, lo, m)
            && o.m.cells[INTERRUPT_DATA] == InterruptRecord("0", pc, "0")
            && o.m.cells[PROC_START] == m.cells[PROC_START]
            && o.m.cells[PROGRAM_COUNTER] == PrintInt(HandlerAddress(m.cells[SYSCALL_HANDLER]).value - 1)
  {
    hide BackupRegisters, EnterHandler, HandlerAddress, Stoi, PrintInt, InterruptRecord, SaveUser, ExecSysCall, Saved,
      Valid;
    var saved := UserSaved(m, lo);
    CallIsEnter(m, saved);
    EnterExact(saved, "0", "0", SYSCALL_HANDLER, pc);
    assert Saved(ExecSysCall(m).m, lo, m) by {
      SavedThrough(saved, ExecSysCall(m).m, lo, m);
    }
  }

  lemma SavedThrough(a: Machine, b: Machine, lo: int, r: Machine)
    requires Saved(a, lo, r) && HW_TIMER < lo && |b.cells| == |a.cells|
    requires forall i :: HW_TIMER < i < |a.cells| ==> b.cells[i] == a.cells[i]
    ensures Saved(b, lo, r)
  {
  }

  lemma CallIsEnter(m: Machine, saved: Machine)
    requires Valid(m) && SaveUser(m.(kernel := true)) == Outcome(saved, Done)
    ensures Valid(saved) && ExecSysCall(m) == EnterHandler(saved, "0", "0", SYSCALL_HANDLER)
  {
    hide SaveUser, EnterHandler;
  }

  /** The machine with the user's registers saved. */
  lemma UserSaved(m: Machine, lo: int) returns (saved: Machine)
    requires UserReady(m) && ProcStart(m) == lo
    ensures Valid(m) && HW_TIMER < lo
    ensures SaveUser(m.(kernel := true)) == Outcome(saved, Done) && Saved(saved, lo, m)
    ensures saved.kernel && saved.status.Running? && |saved.cells| == |m.cells|
    ensures forall i :: 0 <= i <= HW_TIMER ==> saved.cells[i] == m.cells[i]
  {
    hide BackupRegisters, SaveUser;
    var k := m.(kernel := true);
    BackupSaves(k, lo, 1);
    BackupFrame(k, lo, 1);
    SameStart(m, k);
    SaveIsBackupAt(k, lo);
    saved := BackupRegisters(k, lo, 1).m;
  }

  lemma SaveIsBackupAt(m: Machine, lo: int)
    requires Valid(m) && ProcStart(m) == lo && lo != 0
    ensures SaveUser(m) == BackupRegisters(m, lo, 1) && LoadUser(m) == RestoreRegisters(m, lo, 1)
  {
    hide BackupRegisters, RestoreRegisters;
  }

  lemma EnterExact(m: Machine, kind: string, flag: string, handlerCell: int, pc: int)
    requires Valid(m) && 0 <= handlerCell < INTERRUPT_DATA && handlerCell != PROGRAM_COUNTER
    requires Stoi(m.cells[PROGRAM_COUNTER]) == Some(pc) && HandlerAddress(m.cells[handlerCell]).Some?
    ensures EnterHandler(m, kind, flag, handlerCell) ==
              Outcome(m.(kernel := true,
                         cells := m.cells[INTERRUPT_DATA := InterruptRecord(kind, pc, flag)]
                                         [PROGRAM_COUNTER := PrintInt(HandlerAddress(m.cells[handlerCell]).value - 1)]),
                      Done)
  {
  }

  /** The exit side: registers come back from the window, RES and ERROR from the kernel unless
      the record says to ignore them. */
  lemma ExitRestores(m: Machine, lo: int, res: string, err: string, kind: string, pc: int, flag: string)
    requires Valid(m) && ProcStart(m) == lo && HW_TIMER < lo && lo + USER_SPACE_END <= Size(m)
    requires m.cells[INTERRUPT_DATA] == InterruptRecord(kind, pc, flag)
    requires IsToken(kind) && IsToken(flag)
    ensures var o := ExecSysReturn(m, res, err);
            && o.signal.Done? && !o.m.kernel && o.m.status == m.status
            && (forall i :: 1 <= i <= USER_SPACE_END ==>
                  o.m.cells[i] == if flag != "1" && i == REG_RES then res
                                  else if flag != "1" && i == REG_ERROR then err
                                  else m.cells[lo + i])
            && o.m.cells[PROGRAM_COUNTER] == PrintInt(pc) && o.m.cells[INTERRUPT_DATA] == ""
            && forall i :: 0 <= i < |m.cells| && i > USER_SPACE_END && i != PROGRAM_COUNTER && i != INTERRUPT_DATA ==>
                             o.m.cells[i] == m.cells[i]
  {
    hide RestoreRegisters, LoadUser, TokenOr, IsToken, PrintInt, InterruptRecord, ProcStart;
    SaveIsBackupAt(m, lo);
    RestoreLoads(m, lo, 1);
    RestoreFrame(m, lo, 1);
    RecordParses(kind, pc, flag);
  }

  /** The next step executes the given operation, and its energy can be charged. */
  predicate NextIs(m: Machine, input: Inputs, op: int)
    requires Valid(m)
  {
    && m.status.Running? && Fetch(m).signal.Done? && Decode(Fetch(m).value).Exec?
    && Ready(m, input).cells[REG_OP] != "" && Stoi(Ready(m, input).cells[REG_OP]) == Some(op)
    && EnergyOf(m).Some?
  }

  lemma NextHasEnergy(m: Machine, input: Inputs, op: int)
    requires Valid(m) && NextIs(m, input, op)
    ensures EnergyOf(m).Some? && m.status.Running?
  {
  }

  lemma CoreIsOperation(m: Machine, input: Inputs, op: int)
    requires Valid(m) && NextIs(m, input, op) && (m.kernel || op == OP_SYSCALL)
    ensures var n := Ready(m, input);
            Core(m, Exec, input) ==
              Settle(Perform(Charge(n, EnergyOf(m).value, op), op, n.cells[REG_RES], n.cells[REG_ERROR], input), input)
  {
    hide Perform, Settle, Charge;
    var n := Ready(m, input);
    assert n == Poll(Advance(m), input);
    assert EnergyOf(n) == EnergyOf(m) && n.kernel == m.kernel;
  }

  /** State of the user program at the call instruction: PC on the call, ERROR cleared. */
  function AtCall(m: Machine, input: Inputs): (r: Machine)
    requires Valid(m) && EnergyOf(m).Some?
    ensures |r.cells| == |m.cells|
  {
    Charge(Ready(m, input), EnergyOf(m).value, OP_SYSCALL)
  }

  lemma CallStep(m: Machine, input: Inputs, lo: int, pc: int)
    requires UserReady(m) && ProcStart(m) == lo && NextIs(m, input, OP_SYSCALL)
    requires Stoi(m.cells[PROGRAM_COUNTER]) == Some(pc - 1) && InInt(pc)
    requires HandlerAddress(m.cells[SYSCALL_HANDLER]).Some?
    ensures var r, u := Step(m, input), AtCall(m, input);
            && r.kernel && r.status.Running? && Saved(r, lo, u)
            && r.cells[INTERRUPT_DATA] == InterruptRecord("0", pc, "0")
            && r.cells[PROC_START] == m.cells[PROC_START]
            && r.cells[PROGRAM_COUNTER] == PrintInt(HandlerAddress(m.cells[SYSCALL_HANDLER]).value - 1)
  {
    hide AtCall, NextIs, Step, ExecSysCall, Stoi, HandlerAddress, Saved, InterruptRecord;
    NextHasEnergy(m, input, OP_SYSCALL);
    var u := AtCall(m, input);
    StoiPrint(pc);
    AtCallReady(m, input, pc);
    EntrySaves(u, lo, pc);
    SysCallStep(m, input);
  }

  lemma AtCallReady(m: Machine, input: Inputs, pc: int)
    requires UserReady(m) && EnergyOf(m).Some?
    requires Stoi(m.cells[PROGRAM_COUNTER]) == Some(pc - 1)
    ensures var u := AtCall(m, input);
            && UserReady(u) && ProcStart(u) == ProcStart(m) && u.cells[PROGRAM_COUNTER] == PrintInt(pc)
            && u.cells[SYSCALL_HANDLER] == m.cells[SYSCALL_HANDLER] && u.cells[PROC_START] == m.cells[PROC_START]
  {
    hide PrintInt;
  }

  lemma SysCallStep(m: Machine, input: Inputs)
    requires Valid(m) && NextIs(m, input, OP_SYSCALL)
    requires var o := ExecSysCall(AtCall(m, input)); o.signal.Done? && o.m.kernel
    ensures Step(m, input) == ExecSysCall(AtCall(m, input)).m
  {
    hide ExecSysCall, Charge, Core, Decode, Fetch, Ready;
    CoreIsOperation(m, input, OP_SYSCALL);
  }

  lemma ZeroIsToken()
    ensures IsToken("0")
  {
  }

  lemma ReadyCharged(m: Machine, input: Inputs, op: int)
    requires Valid(m) && EnergyOf(m).Some?
    ensures var c := Charge(Ready(m, input), EnergyOf(m).value, op);
            && c.status == m.status && c.kernel == m.kernel && c.disks == m.disks
            && forall i :: 0 <= i < |m.cells| && i > USER_SPACE_END && i != PROGRAM_COUNTER && i != SYS_ENERGY ==>
                             c.cells[i] == m.cells[i]
  {
  }

  lemma ReturnPerforms(c: Machine, res: string, err: string, input: Inputs)
    requires Valid(c)
    ensures Perform(c, OP_SYSRETURN, res, err, input) == ExecSysReturn(c, res, err)
  {
  }

  /** The whole round trip. A user program calls the system in state `m`; the kernel runs in any
      way that keeps the register backup, the process start and the interrupt record, and
      returns from state `k`. The program then continues behind its call with registers 1-11 as
      they were, except RES and ERROR, which hold the kernel's values. */
  lemma SyscallRoundTrip(m: Machine, input: Inputs, k: Machine, back: Inputs, lo: int, pc: int)
    requires UserReady(m) && ProcStart(m) == lo && NextIs(m, input, OP_SYSCALL)
    requires Stoi(m.cells[PROGRAM_COUNTER]) == Some(pc - 1) && InInt(pc)
    requires HandlerAddress(m.cells[SYSCALL_HANDLER]).Some?
    requires |k.cells| == |m.cells| && k.kernel && NextIs(k, back, OP_SYSRETURN)
    requires forall i :: lo < i <= lo + USER_SPACE_END || i == PROC_START || i == INTERRUPT_DATA ==>
                           k.cells[i] == Step(m, input).cells[i]
    ensures var r, u := Core(k, Exec, back), AtCall(m, input);
            && !r.kernel && r.status.Running? && r.cells[PROGRAM_COUNTER] == PrintInt(pc)
            && r.cells[INTERRUPT_DATA] == ""
            && (forall i :: 1 <= i <= USER_SPACE_END && i != REG_RES && i != REG_ERROR ==> r.cells[i] == u.cells[i])
            && r.cells[REG_RES] == Ready(k, back).cells[REG_RES]
            && r.cells[REG_ERROR] == Ready(k, back).cells[REG_ERROR]
            && |r.cells| == |k.cells|
            && forall i :: USER_SPACE_END < i < |k.cells| && i !in {PROGRAM_COUNTER, SYS_ENERGY, INTERRUPT_DATA} ==>
                             r.cells[i] == k.cells[i]
  {
    hide Core, Decode, Fetch, Step, AtCall, Ready, NextIs, Charge, Perform, ExecSysReturn, InterruptRecord, IsToken;
    NextHasEnergy(m, input, OP_SYSCALL);
    CallStep(m, input, lo, pc);
    var n := Ready(k, back);
    NextHasEnergy(k, back, OP_SYSRETURN);
    var c := Charge(n, EnergyOf(k).value, OP_SYSRETURN);
    CoreIsOperation(k, back, OP_SYSRETURN);
    ReadyCharged(k, back, OP_SYSRETURN);
    assert ProcStart(c) == lo && c.cells[INTERRUPT_DATA] == InterruptRecord("0", pc, "0");
    assert IsToken("0") by { ZeroIsToken(); }
    ExitRestores(c, lo, n.cells[REG_RES], n.cells[REG_ERROR], "0", pc, "0");
    ReturnPerforms(c, n.cells[REG_RES], n.cells[REG_ERROR], back);
    forall i | 1 <= i <= USER_SPACE_END && i != REG_RES && i != REG_ERROR
      ensures Core(k, Exec, back).cells[i] == AtCall(m, input).cells[i]
    {
      assert c.cells[lo + i] == k.cells[lo + i] == Step(m, input).cells[lo + i] == AtCall(m, input).cells[i];
    }
  }
}
