/** Properties of whole runs: isolation and mode discipline. */
module Runs {
  import opened Wrappers
  import opened Text
  import opened Hardware
  import opened Isolation

  /** The state after one step per input; a stopped machine no longer moves. */
  function Run(m: Machine, ins: seq<Inputs>): (r: Machine)
    requires Valid(m)
    ensures |r.cells| == |m.cells|
  {
    if ins == [] then m else Step(Run(m, ins[..|ins| - 1]), ins[|ins| - 1])
  }

  /** The k-th state of the run. */
  function State(m: Machine, ins: seq<Inputs>, k: nat): (r: Machine)
    requires Valid(m) && k <= |ins|
    ensures |r.cells| == |m.cells|
  {
    Run(m, ins[..k])
  }

  lemma StatePrefix(m: Machine, ins: seq<Inputs>, first: seq<Inputs>, k: nat)
    requires Valid(m) && first <= ins && k <= |first|
    ensures State(m, first, k) == State(m, ins, k)
  {
    assert first[..k] == ins[..k];
  }

  lemma StateIsRun(m: Machine, ins: seq<Inputs>, first: seq<Inputs>)
    requires Valid(m) && first <= ins
    ensures State(m, ins, |first|) == Run(m, first)
  {
    assert first == ins[..|first|];
  }

  lemma StateStep(m: Machine, ins: seq<Inputs>, k: nat)
    requires Valid(m) && k < |ins|
    ensures State(m, ins, k + 1) == Step(State(m, ins, k), ins[k])
  {
    assert ins[..k + 1][..k] == ins[..k];
  }

  lemma {:induction false} RunAppend(m: Machine, a: seq<Inputs>, b: seq<Inputs>)
    requires Valid(m)
    ensures Run(m, a + b) == Run(Run(m, a), b)
  {
    if b == [] {
      assert a + b == a;
    } else {
      assert (a + b)[..|a + b| - 1] == a + b[..|b| - 1];
      RunAppend(m, a, b[..|b| - 1]);
    }
  }

  /** Whenever the run is in user mode, the program is well placed and its next addresses are non-negative. */
  ghost predicate Disciplined(m: Machine, ins: seq<Inputs>)
    requires Valid(m)
  {
    forall k :: 0 <= k < |ins| ==> DisciplinedState(State(m, ins, k), ins[k])
  }

  predicate DisciplinedState(s: Machine, input: Inputs)
    requires Valid(s)
  {
    s.kernel || !s.status.Running? || (UserReady(s) && StepNonNegative(s, input))
  }

  ghost predicate StaysUser(m: Machine, ins: seq<Inputs>)
    requires Valid(m)
  {
    forall k :: 0 <= k < |ins| ==> UserState(State(m, ins, k), ins[k])
  }

  predicate UserState(s: Machine, input: Inputs)
    requires Valid(s)
  {
    !s.kernel && s.status.Running? && StepNonNegative(s, input)
  }

  lemma StaysUserPrefix(m: Machine, ins: seq<Inputs>)
    requires Valid(m) && ins != [] && StaysUser(m, ins)
    ensures StaysUser(m, ins[..|ins| - 1])
    ensures UserState(Run(m, ins[..|ins| - 1]), ins[|ins| - 1])
  {
    hide UserState, State;
    var n := |ins| - 1;
    forall k | 0 <= k < n
      ensures UserState(State(m, ins[..n], k), ins[..n][k])
    {
      StatePrefix(m, ins, ins[..n], k);
      assert UserState(State(m, ins, k), ins[k]);
    }
    assert UserState(State(m, ins, n), ins[n]);
    StateIsRun(m, ins, ins[..n]);
  }

  /** Isolation over a whole user-mode run: only user registers, the window, PC, energy and
      timer change, and the interrupt record only by the step that enters the kernel. */
  lemma {:induction false} UserRunConfined(m: Machine, ins: seq<Inputs>)
    requires UserReady(m) && StaysUser(m, ins)
    ensures StepConfined(ProcStart(m), ProcEnd(m), m, Run(m, ins))
  {
    if ins != [] {
      var n := |ins| - 1;
      var s := Run(m, ins[..n]);
      StaysUserPrefix(m, ins);
      UserRunConfined(m, ins[..n]);
      StillReady(m, s, ProcStart(m), ProcEnd(m));
      UserStep(s, ins[n], ProcStart(m), ProcEnd(m));
    }
  }

  /** Step k may change cell i: it runs in kernel mode, or the cell belongs to the running
      program, or it is the timer or the interrupt record of a kernel entry. */
  predicate MayChange(s: Machine, r: Machine, i: int)
    requires Valid(s)
  {
    s.kernel || UserCell(ProcStart(s), ProcEnd(s), i) || i == HW_TIMER || (i == INTERRUPT_DATA && r.kernel)
  }

  lemma StepHasOwner(s: Machine, input: Inputs, i: int)
    requires Valid(s) && DisciplinedState(s, input) && 0 <= i < |s.cells| && Step(s, input).cells[i] != s.cells[i]
    ensures MayChange(s, Step(s, input), i)
  {
    hide Step, ProcStart, ProcEnd, StepNonNegative;
    if !s.kernel {
      DisciplinedIsReady(s, input);
      UserStep(s, input, ProcStart(s), ProcEnd(s));
    }
  }

  lemma DisciplinedIsReady(s: Machine, input: Inputs)
    requires Valid(s) && DisciplinedState(s, input) && !s.kernel && Step(s, input) != s
    ensures UserReady(s) && StepNonNegative(s, input)
  {
    hide StepNonNegative, ProcStart, ProcEnd;
  }

  lemma DisciplinedPrefix(m: Machine, ins: seq<Inputs>)
    requires Valid(m) && ins != [] && Disciplined(m, ins)
    ensures Disciplined(m, ins[..|ins| - 1]) && DisciplinedState(State(m, ins, |ins| - 1), ins[|ins| - 1])
  {
    hide State, DisciplinedState;
    var n := |ins| - 1;
    forall k | 0 <= k < n
      ensures DisciplinedState(State(m, ins[..n], k), ins[..n][k])
    {
      StatePrefix(m, ins, ins[..n], k);
    }
  }

  /** In any run, a cell that changed was changed by the kernel or by the program that owned it
      at that moment. */
  lemma {:induction false} ChangeHasOwner(m: Machine, ins: seq<Inputs>, i: int)
    requires Valid(m) && Disciplined(m, ins) && 0 <= i < |m.cells|
    requires Run(m, ins).cells[i] != m.cells[i]
    ensures exists k :: 0 <= k < |ins| && MayChange(State(m, ins, k), State(m, ins, k + 1), i)
  {
    hide Step, MayChange, Disciplined, DisciplinedState;
    var n := |ins| - 1;
    var s := State(m, ins, n);
    StateStep(m, ins, n);
    DisciplinedPrefix(m, ins);
    assert ins[..n + 1] == ins;
    if s.cells[i] != Run(m, ins).cells[i] {
      StepHasOwner(s, ins[n], i);
      assert MayChange(State(m, ins, n), State(m, ins, n + 1), i);
    } else {
      ChangeHasOwner(m, ins[..n], i);
      var k :| 0 <= k < n && MayChange(State(m, ins[..n], k), State(m, ins[..n], k + 1), i);
      StatePrefix(m, ins, ins[..n], k);
      StatePrefix(m, ins, ins[..n], k + 1);
      assert MayChange(State(m, ins, k), State(m, ins, k + 1), i);
    }
  }

  predicate Returns(m: Machine, instr: Instr, input: Inputs)
    requires Valid(m)
  {
    instr.Exec? && Ready(m, input).cells[REG_OP] != ""
    && Stoi(Ready(m, input).cells[REG_OP]) == Some(OP_SYSRETURN)
  }

  lemma KernelPerform(m: Machine, op: int, res: string, err: string, input: Inputs)
    requires Valid(m) && m.kernel
    ensures !Perform(m, op, res, err, input).m.kernel ==>
              op == OP_SYSRETURN && Perform(m, op, res, err, input).signal.Done?
  {
    hide Compute, ReadBlock, WriteBlock;
    if op == OP_SYSCALL {
      if Stoi(m.cells[PROC_START]).Some? {
        assert m.(kernel := true) == m;
        BackupFrame(m, Stoi(m.cells[PROC_START]).value, 1);
      }
    } else if op == OP_SYSRETURN {
      if Stoi(m.cells[PROC_START]).Some? {
        RestoreFrame(m, Stoi(m.cells[PROC_START]).value, 1);
      }
    }
  }

  lemma {:induction false} RestoreFrame(m: Machine, offset: int, i: int)
    requires Valid(m) && 1 <= i <= USER_SPACE_END + 1
    ensures var o := RestoreRegisters(m, offset, i);
            && o.m.kernel == m.kernel && o.m.disks == m.disks && o.m.status == m.status
            && (o.signal.Done? || o.signal.MemoryFault?)
            && forall k :: 0 <= k < |m.cells| && !(i <= k <= USER_SPACE_END) ==> o.m.cells[k] == m.cells[k]
    decreases USER_SPACE_END + 1 - i
  {
    if i <= USER_SPACE_END && 1 <= i + offset <= Size(m) {
      RestoreFrame(Put(m, i, m.cells[i + offset]), offset, i + 1);
    }
  }

  lemma KernelExecute(m: Machine, instr: Instr, input: Inputs)
    requires Valid(m) && m.kernel
    ensures var o := Execute(m, instr, input);
            !o.m.kernel ==> instr.Exec? && m.cells[REG_OP] != "" && Stoi(m.cells[REG_OP]) == Some(OP_SYSRETURN)
                            && o.signal.Done?
  {
    hide Perform;
    if instr.Exec? && m.cells[REG_OP] != "" && Stoi(m.cells[REG_OP]).Some? && EnergyOf(m).Some? {
      var op := Stoi(m.cells[REG_OP]).value;
      KernelPerform(Charge(m, EnergyOf(m).value, op), op, m.cells[REG_RES], m.cells[REG_ERROR], input);
    }
  }

  lemma TickRaisesOnly(m: Machine)
    requires Valid(m) && m.kernel
    ensures TimerPhase(m) == m
  {
  }

  lemma KernelCore(m: Machine, instr: Instr, input: Inputs)
    requires Valid(m) && m.kernel
    ensures !Core(m, instr, input).kernel ==> Returns(m, instr, input)
  {
    hide Execute;
    var n := Ready(m, input);
    assert n == Poll(Advance(m), input);
    KernelExecute(n, instr, input);
    var o := Execute(n, instr, input);
    if o.m.kernel {
      KernelFaultHalts(o.m, "139", input);
      KernelFaultHalts(o.m, "1", input);
    }
  }

  /** Kernel mode is left only by a system return that the kernel executes. */
  lemma KernelStep(m: Machine, input: Inputs)
    requires Valid(m) && m.kernel
    ensures !Step(m, input).kernel ==>
              m.status.Running? && Fetch(m).signal.Done? && Returns(m, Decode(Fetch(m).value), input)
  {
    hide Core, Decode, TimerPhase, Fetch, Returns;
    var instr := Decode(Fetch(m).value);
    var core := Core(m, instr, input);
    if core.kernel {
      TickRaisesOnly(core);
    } else {
      KernelCore(m, instr, input);
    }
  }

  /** Step k of the run is a system return executed in kernel mode. */
  predicate Grants(m: Machine, ins: seq<Inputs>, k: nat)
    requires Valid(m) && k < |ins|
  {
    var s := State(m, ins, k);
    s.kernel && Returns(s, Decode(Fetch(s).value), ins[k])
  }

  /** Every passage from kernel to user mode in a run contains a system return executed by the kernel. */
  lemma {:induction false} UserModeIsGranted(m: Machine, ins: seq<Inputs>)
    requires Valid(m) && m.kernel && !Run(m, ins).kernel
    ensures exists k :: 0 <= k < |ins| && Grants(m, ins, k)
  {
    hide Step, Fetch, Decode, Returns;
    var n := |ins| - 1;
    var s := State(m, ins, n);
    StateIsRun(m, ins, ins[..n]);
    if s.kernel {
      KernelStep(s, ins[n]);
      assert Grants(m, ins, n);
    } else {
      UserModeIsGranted(m, ins[..n]);
      var k :| 0 <= k < n && Grants(m, ins[..n], k);
      StatePrefix(m, ins, ins[..n], k);
      assert Grants(m, ins, k);
    }
  }
}
