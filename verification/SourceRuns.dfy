/** Whole runs of a compiled program that cross mode changes: a kernel program goes through the
    states of the source machine while user programs run in between. */
module SourceRuns {
  import opened Wrappers
  import opened Text
  import opened Hardware
  import opened Isolation
  import opened Runs
  import opened Encoding
  import opened Layout
  import opened Simulation
  import opened AddressMap
  import opened SourceMachine
  import A = Assembler

  // ---- What a step keeps ----

  /** High cells and process bounds are the same. */
  ghost predicate SameHigh(m: Machine, r: Machine) {
    && |r.cells| == |m.cells|
    && forall i :: 0 <= i < |m.cells| && (i > HW_TIMER || i == PROC_START || i == PROC_END) ==>
                     r.cells[i] == m.cells[i]
  }

  lemma PerformHigh(m: Machine, op: int, res: string, err: string, input: Inputs)
    requires Valid(m)
    ensures var o := Perform(m, op, res, err, input);
            if op == OP_SYSCALL then o.m.kernel else SameHigh(m, o.m)
  {
    hide Compute, ReadBlock, WriteBlock, EnterHandler, ExecSysCall, BackupRegisters, RestoreRegisters, Stoi, PrintInt;
    if op == OP_SYSCALL {
      SysCallIsKernel(m);
    } else if op == OP_SYSRETURN {
      if Stoi(m.cells[PROC_START]).Some? {
        RestoreFrame(m, Stoi(m.cells[PROC_START]).value, 1);
      }
    }
  }

  lemma SysCallIsKernel(m: Machine)
    requires Valid(m)
    ensures ExecSysCall(m).m.kernel
  {
    if Stoi(m.cells[PROC_START]).Some? {
      BackupFrame(m.(kernel := true), Stoi(m.cells[PROC_START]).value, 1);
    }
  }

  lemma OperationHigh(m: Machine, input: Inputs)
    requires Valid(m)
    ensures var o := ExecOperation(m, input);
            SameHigh(m, o.m) || (CallsSystem(m) && o.m.kernel)
  {
    hide Perform, Stoi, PrintInt;
    if m.cells[REG_OP] != "" && Stoi(m.cells[REG_OP]).Some? && EnergyOf(m).Some? {
      var op := Stoi(m.cells[REG_OP]).value;
      PerformHigh(Charge(m, EnergyOf(m).value, op), op, m.cells[REG_RES], m.cells[REG_ERROR], input);
    }
  }

  lemma SameHighSelf(m: Machine, r: Machine)
    requires r.cells == m.cells
    ensures SameHigh(m, r)
  {
  }

  lemma TickHigh(m: Machine)
    requires Valid(m)
    ensures SameHigh(m, TimerPhase(m))
  {
    hide Stoi, PrintInt, HandlerAddress, InterruptRecord;
  }

  lemma ReadyMode(m: Machine, input: Inputs)
    requires Valid(m)
    ensures Ready(m, input) == Poll(Advance(m), input) && Ready(m, input).kernel == m.kernel
    ensures Ready(m, input).status == m.status
  {
  }

  ghost predicate Keeps(m: Machine, r: Machine, a: int, b: int) {
    |r.cells| == |m.cells| && forall q :: a <= q < b && 0 <= q < |m.cells| ==> r.cells[q] == m.cells[q]
  }

  /** The range lies behind the system registers and behind the backup area of the running program. */
  predicate Clear(m: Machine, a: int)
    requires Valid(m)
  {
    HW_TIMER < a && (!m.kernel ==> ProcStart(m) + USER_SPACE_END < a)
  }

  /** The instruction writes no cell of the range and, in user mode, no process bound; and the
      kernel does not call itself. */
  predicate Spares(m: Machine, instr: Instr, a: int, b: int)
    requires Valid(m)
  {
    match instr
    case Copy(_, dst) =>
      var d := Pointer(m, dst);
      d.signal.Done? && d.addr.Some? && Locate(m, d.addr.value).At? ==>
        var q := Locate(m, d.addr.value).index;
        !(a <= q < b) && (m.kernel || (q != PROC_START && q != PROC_END))
    case Exec => m.kernel ==> !CallsSystem(m)
    case _ => true
  }

  lemma SysCallKeeps(m: Machine, a: int, b: int)
    requires Valid(m) && HW_TIMER < a && ProcStart(m) + USER_SPACE_END < a
    ensures Keeps(m, ExecSysCall(m).m, a, b) && ExecSysCall(m).m.kernel
  {
    hide Stoi, PrintInt, BackupRegisters;
    var k := m.(kernel := true);
    if Stoi(m.cells[PROC_START]).Some? {
      BackupFrame(k, Stoi(m.cells[PROC_START]).value, 1);
    }
  }

  lemma HighKept(m: Machine, r: Machine, a: int, b: int)
    requires SameHigh(m, r) && HW_TIMER < a && Valid(m)
    ensures Keeps(m, r, a, b) && r.cells[PROC_START] == m.cells[PROC_START]
  {
  }

  lemma OperationKeeps(m: Machine, input: Inputs, a: int, b: int)
    requires Valid(m) && Clear(m, a) && Spares(m, Exec, a, b)
    ensures var o := ExecOperation(m, input);
            Keeps(m, o.m, a, b) && (o.m.kernel || o.m.cells[PROC_START] == m.cells[PROC_START])
  {
    hide Perform, Stoi, SameHigh, ProcStart, ExecSysCall;
    var o := ExecOperation(m, input);
    OperationHigh(m, input);
    if SameHigh(m, o.m) {
      HighKept(m, o.m, a, b);
    } else {
      CallIsMade(m, input);
      var c := Charge(m, EnergyOf(m).value, OP_SYSCALL);
      assert ProcStart(c) == ProcStart(m) by { ChargedStart(m, EnergyOf(m).value); }
      SysCallKeeps(c, a, b);
    }
  }

  lemma ChargedStart(m: Machine, energy: int)
    requires Valid(m)
    ensures ProcStart(Charge(m, energy, OP_SYSCALL)) == ProcStart(m)
  {
    hide Stoi, PrintInt;
  }

  lemma CallIsMade(m: Machine, input: Inputs)
    requires Valid(m) && CallsSystem(m) && !SameHigh(m, ExecOperation(m, input).m)
    ensures EnergyOf(m).Some? && ExecOperation(m, input) == ExecSysCall(Charge(m, EnergyOf(m).value, OP_SYSCALL))
  {
    hide Stoi, PrintInt, ExecSysCall;
    SameHighSelf(m, m);
  }

  lemma CopyKeeps(m: Machine, src: Operand, dst: Operand, a: int, b: int)
    requires Valid(m) && Spares(m, Copy(src, dst), a, b)
    ensures var o := ExecCopy(m, src, dst);
            Keeps(m, o.m, a, b) && o.m.kernel == m.kernel && (m.kernel || o.m.cells[PROC_START] == m.cells[PROC_START])
  {
    hide Pointer;
  }

  lemma JumpKeeps(m: Machine, cond: Condition, target: Operand, a: int, b: int)
    requires Valid(m) && HW_TIMER < a
    ensures var o := ExecJump(m, cond, target);
            Keeps(m, o.m, a, b) && o.m.kernel == m.kernel && o.m.cells[PROC_START] == m.cells[PROC_START]
  {
    hide Pointer, Taken;
  }

  lemma ExecuteSpares(m: Machine, instr: Instr, input: Inputs, a: int, b: int)
    requires Valid(m) && Clear(m, a) && Spares(m, instr, a, b)
    ensures var o := Execute(m, instr, input);
            && Keeps(m, o.m, a, b)
            && (o.m.kernel || m.kernel || o.m.cells[PROC_START] == m.cells[PROC_START])
            && (m.kernel && !o.m.kernel ==> o.signal.Done?)
  {
    hide ExecOperation, ExecCopy, ExecJump, ProcStart, Stoi;
    if m.kernel {
      KernelExecute(m, instr, input);
    }
    match instr
    case Exec => OperationKeeps(m, input, a, b);
    case Copy(src, dst) => CopyKeeps(m, src, dst, a, b);
    case Jump(cond, target) => JumpKeeps(m, cond, target, a, b);
    case _ =>
  }

  lemma FaultSpares(m: Machine, code: string, input: Inputs, a: int, b: int)
    requires Valid(m) && Clear(m, a)
    ensures Keeps(m, HandleFault(m, code, input), a, b)
  {
    hide ExecOperation, ProcStart;
    if !m.kernel {
      var n := Put(Put(Put(m, REG_A, code), REG_E, "0"), REG_OP, "25");
      SameStart(m, n);
      OperationKeeps(n, input, a, b);
    }
  }

  lemma TickSpares(m: Machine, a: int, b: int)
    requires Valid(m) && HW_TIMER < a
    ensures Keeps(m, TimerPhase(m), a, b)
  {
    hide SameHigh;
    TickHigh(m);
    HighKept(m, TimerPhase(m), a, b);
  }

  /** A step in either mode, mode changes included, keeps the range that its instruction spares. */
  lemma StepSpares(m: Machine, instr: Instr, input: Inputs, a: int, b: int)
    requires Valid(m) && Clear(m, a) && Spares(Ready(m, input), instr, a, b)
    ensures Keeps(m, StepWith(m, instr, input), a, b)
  {
    hide Execute, HandleFault, TimerPhase, ProcStart, Spares, Advance, Poll;
    ReadySpares(m, input, a, b);
    ReadyMode(m, input);
    var n := Ready(m, input);
    if !instr.DebugMark? {
      ExecuteSpares(n, instr, input, a, b);
      var o := Execute(n, instr, input);
      if o.signal.MemoryFault? || o.signal.CpuFault? {
        assert Clear(o.m, a) by { StillClear(n, o.m, a); }
        FaultSpares(o.m, "139", input, a, b);
        FaultSpares(o.m, "1", input, a, b);
      }
      TickSpares(Core(m, instr, input), a, b);
    }
  }

  lemma StillClear(n: Machine, r: Machine, a: int)
    requires Valid(n) && Clear(n, a) && Valid(r)
             && (r.kernel || (!n.kernel && r.cells[PROC_START] == n.cells[PROC_START]))
    ensures Clear(r, a)
  {
    hide Stoi;
  }

  lemma ReadySpares(m: Machine, input: Inputs, a: int, b: int)
    requires Valid(m) && Clear(m, a)
    ensures Keeps(m, Ready(m, input), a, b) && Clear(Ready(m, input), a) && Keeps(m, Advance(m), a, b)
  {
    hide Stoi, PrintInt;
  }

  // ---- Source lines that spare the image ----

  /** In front of its line, the program writes neither code nor literals: variables it may name
      or reach through pointers. */
  ghost predicate Tame(p: Program, s: Site, x: Source, line: A.Line)
    requires Valid(x.rest) && ProperCode(line)
  {
    if line.cmd == "cpu_exec" then x.rest.kernel ==> !CallsSystem(x.rest)
    else if line.cmd == "copy" || line.cmd == "write" then
      var f := Find(p, s, x, RefOf(p, line.args[2]));
      f.signal.Done? && f.spot.Some? ==> SpotTame(p, s, x, f.spot.value)
    else true
  }

  ghost predicate SpotTame(p: Program, s: Site, x: Source, spot: Spot)
    requires Valid(x.rest)
  {
    match spot
    case Named(_) => true
    case Address(a) =>
      Locate(x.rest, a).At? ==>
        var q := Locate(x.rest, a).index;
        !(s.base <= q < s.base + FixedLength(p.lines)) && (x.rest.kernel || (q != PROC_START && q != PROC_END))
  }

  /** Named variables never hit the image: a tame line spares it. */
  lemma TameSpares(p: Program, s: Site, x: Source, line: A.Line)
    requires Fits(p, s, x) && Home(p, s, x.rest) && USER_SPACE_START <= p.first
    requires ProperCode(line) && LineLexed(line, p.syms) && NamesResolved(p, line) && Tame(p, s, x, line)
    ensures Spares(Conc(p, s, x), Meaning(line, MapOf(p.lines, p.first), p.syms), s.base, s.base + FixedLength(p.lines))
  {
    hide Conc, Fits, Home, MapOf, RefOf, Lower, Encoding.Place, Target, Value, Lexed, Find, Pointer, Locate,
      FixedLength, Declared, SpotAddress, SpotTame, SpotDeclared, CellOf, Stoi;
    FitsValid(p, s, x);
    ConcLow(p, s, x);
    if line.cmd == "copy" || line.cmd == "write" {
      assert A.Fits(line.args[2], A.Pattern(line.cmd)[2]);
      RefLowers(p, line.args[2]);
      var r := RefOf(p, line.args[2]);
      Finds(p, s, x, r);
      var f := Find(p, s, x, r);
      if f.signal.Done? && f.spot.Some? {
        SpotSpares(p, s, x, f.spot.value);
      }
    }
  }

  lemma SpotSpares(p: Program, s: Site, x: Source, spot: Spot)
    requires Fits(p, s, x) && Home(p, s, x.rest) && USER_SPACE_START <= p.first && SpotDeclared(p, spot)
             && SpotTame(p, s, x, spot)
    ensures Locate(x.rest, SpotAddress(p, spot)).At? ==>
              var q := Locate(x.rest, SpotAddress(p, spot)).index;
              !(s.base <= q < s.base + FixedLength(p.lines)) && (x.rest.kernel || (q != PROC_START && q != PROC_END))
  {
    hide FixedLength, Home, VariableAddress, Locate;
    match spot
    case Named(name) => NameIsCell(p, s, x, name);
    case Address(_) =>
  }

  /** A step of the program keeps its image. */
  lemma OwnStepKeeps(p: Program, s: Site, x: Source, image: seq<string>, input: Inputs)
    requires Accepted(p) && Fits(p, s, x) && Home(p, s, x.rest) && x.rest.status.Running? && Here(p, s, x).Some?
    requires InPlace(p, s, Conc(p, s, x), image)
    requires var j := Here(p, s, x).value; Tame(p, s, Behind(x, j, input), p.lines[j])
    ensures InPlace(p, s, Conc(p, s, SourceStep(p, s, x, input)), image)
  {
    hide Accepted, Conc, Fits, Home, MapOf, CellOf, TablesOf, FixedLength, Length, Position, Tame, Meaning,
      SourceStep, NamesResolved, LineLexed, Spares, StepWith, MeaningOf, Behind, Clear, InPlace;
    var j := Here(p, s, x).value;
    var line := p.lines[j];
    InRangeOf(p);
    assert Valid(x.rest) && Valid(Conc(p, s, x)) by { FitsValid(p, s, x); }
    BehindIsReady(p, s, x, input);
    NextIsAt(p.lines, x.where.line);
    LineResolved(p, Position(p.lines, x.where.line));
    BehindHome(p, s, x, j, input);
    TameSpares(p, s, Behind(x, j, input), line);
    LineSteps(p, s, x, input);
    HomeIsClear(p, s, x);
    StepSpares(Conc(p, s, x), Meaning(line, MapOf(p.lines, p.first), p.syms), input, s.base, s.base +
        FixedLength(p.lines));
    KeptInPlace(p, s, Conc(p, s, x), Conc(p, s, SourceStep(p, s, x, input)), image);
  }

  lemma BehindHome(p: Program, s: Site, x: Source, j: nat, input: Inputs)
    requires Valid(x.rest) && Home(p, s, x.rest)
    ensures Valid(Behind(x, j, input).rest) && Home(p, s, Behind(x, j, input).rest)
  {
    hide Home;
    PolledHome(p, s, x.rest, input);
  }

  lemma HomeIsClear(p: Program, s: Site, x: Source)
    requires Fits(p, s, x) && Home(p, s, x.rest) && USER_SPACE_START <= p.first
    ensures Clear(Conc(p, s, x), s.base)
  {
    hide Length, Stoi, CellOf;
    ConcLow(p, s, x);
  }

  lemma KeptInPlace(p: Program, s: Site, m: Machine, r: Machine, image: seq<string>)
    requires InPlace(p, s, m, image) && Keeps(m, r, s.base, s.base + FixedLength(p.lines))
    ensures InPlace(p, s, r, image)
  {
    hide FixedLength;
  }

  // ---- Steps elsewhere ----

  /** A step of somebody else: it leaves the whole block alone. */
  ghost predicate Apart(p: Program, s: Site, m: Machine, r: Machine) {
    Keeps(m, r, s.base, s.base + Length(p.lines))
  }

  /** It keeps the image and every variable. */
  lemma ForeignStepKeeps(p: Program, s: Site, x: Source, image: seq<string>, input: Inputs)
    requires Accepted(p) && Fits(p, s, x) && x.rest.status.Running? && Here(p, s, x).None?
             && InPlace(p, s, Conc(p, s, x), image)
    requires Apart(p, s, Conc(p, s, x), Step(Conc(p, s, x), input))
    ensures InPlace(p, s, Conc(p, s, SourceStep(p, s, x, input)), image) && SourceStep(p, s, x, input).store == x.store
  {
    hide Accepted, Step, CellOf, FixedLength, Here;
    InRangeOf(p);
    FitsValid(p, s, x);
    LengthFits(p, s, x);
    LengthIs(p);
    var m := Conc(p, s, x);
    var r := Step(m, input);
    ConcOfAbs(p, s, r);
    KeptInPlace(p, s, m, r, image);
    StoreKept(p, s, x, r);
  }

  lemma StoreKept(p: Program, s: Site, x: Source, r: Machine)
    requires Fits(p, s, x) && Apart(p, s, Conc(p, s, x), r)
    ensures Valid(r) && Abs(p, s, r).store == x.store
  {
    hide WhereOf, Conc, PcText;
    var y := Abs(p, s, r);
    forall name | name in VarsOf(p.lines)
      ensures name in x.store && y.store[name] == x.store[name]
    {
      CellOfName(p, s, x, name);
      var q := StoreStart(p, s) + IndexIn(VarsOf(p.lines), name);
      assert r.cells[q] == Conc(p, s, x).cells[q];
      assert name in Names(p);
    }
    assert y.store.Keys == x.store.Keys;
  }

  /** A user program whose block is apart from the kernel's leaves it alone. */
  lemma UserLeavesKernel(p: Program, s: Site, m: Machine, input: Inputs)
    requires UserReady(m) && StepNonNegative(m, input) && HW_TIMER < s.base
    requires ProcEnd(m) < s.base || s.base + Length(p.lines) <= ProcStart(m)
    ensures Apart(p, s, m, Step(m, input))
  {
    hide Step, Length, StepNonNegative, ProcStart, ProcEnd;
    UserStep(m, input, ProcStart(m), ProcEnd(m));
  }

  // ---- Runs ----

  function SourceRun(p: Program, s: Site, x: Source, ins: seq<Inputs>): (r: Source)
    requires Fits(p, s, x)
    ensures Fits(p, s, r)
  {
    if ins == [] then x else SourceStep(p, s, SourceRun(p, s, x, ins[..|ins| - 1]), ins[|ins| - 1])
  }

  /** The program is at a line that spares its image, or somebody else leaves its block alone. */
  ghost predicate Orderly(p: Program, s: Site, x: Source, input: Inputs)
    requires Fits(p, s, x)
  {
    x.rest.status.Running? ==>
      match Here(p, s, x)
      case Some(j) => Home(p, s, x.rest) && Tame(p, s, Behind(x, j, input), p.lines[j])
      case None => Apart(p, s, Conc(p, s, x), Step(Conc(p, s, x), input))
  }

  ghost predicate OrderlyRun(p: Program, s: Site, x: Source, ins: seq<Inputs>)
    requires Fits(p, s, x)
  {
    forall k :: 0 <= k < |ins| ==> Orderly(p, s, SourceRun(p, s, x, ins[..k]), ins[k])
  }

  lemma OrderlyPrefix(p: Program, s: Site, x: Source, ins: seq<Inputs>)
    requires Fits(p, s, x) && ins != [] && OrderlyRun(p, s, x, ins)
    ensures OrderlyRun(p, s, x, ins[..|ins| - 1]) && Orderly(p, s, SourceRun(p, s, x, ins[..|ins| - 1]), ins[|ins| - 1])
  {
    hide Orderly, SourceRun, Fits;
    var n := |ins| - 1;
    forall k | 0 <= k < n
      ensures Orderly(p, s, SourceRun(p, s, x, ins[..n][..k]), ins[..n][k])
    {
      assert ins[..n][..k] == ins[..k];
    }
  }

  lemma StepKeepsPlace(p: Program, s: Site, x: Source, image: seq<string>, input: Inputs)
    requires Accepted(p) && Fits(p, s, x) && InPlace(p, s, Conc(p, s, x), image) && Orderly(p, s, x, input)
    ensures InPlace(p, s, Conc(p, s, SourceStep(p, s, x, input)), image)
  {
    hide Accepted, Fits, Home, Tame, Apart, InPlace, Conc, Here, Step, Behind, ProperCode;
    FitsValid(p, s, x);
    if !x.rest.status.Running? {
      assert SourceStep(p, s, x, input) == x;
    } else if Here(p, s, x).Some? {
      OwnStepKeeps(p, s, x, image, input);
    } else {
      ForeignStepKeeps(p, s, x, image, input);
    }
  }

  /** The compiled image goes through the states of the source run, whatever the modes of its
      steps, and stays in place. */
  lemma {:induction false} CompiledRun(p: Program, s: Site, x: Source, image: seq<string>, debug: bool,
                                       ins: seq<Inputs>)
    requires Accepted(p) && image == ImageOf(p, debug) && Fits(p, s, x) && InPlace(p, s, Conc(p, s, x), image)
    requires OrderlyRun(p, s, x, ins)
    ensures Run(Conc(p, s, x), ins) == Conc(p, s, SourceRun(p, s, x, ins))
    ensures InPlace(p, s, Conc(p, s, SourceRun(p, s, x, ins)), image)
  {
    hide Accepted, Fits, InPlace, Conc, Step, SourceStep, Orderly, OrderlyRun, ImageOf;
    FitsValid(p, s, x);
    if ins != [] {
      var n := |ins| - 1;
      OrderlyPrefix(p, s, x, ins);
      CompiledRun(p, s, x, image, debug, ins[..n]);
      var y := SourceRun(p, s, x, ins[..n]);
      OrderlyHome(p, s, y, ins[n]);
      SourceStepHolds(p, s, y, image, debug, ins[n]);
      StepKeepsPlace(p, s, y, image, ins[n]);
    }
  }

  lemma OrderlyHome(p: Program, s: Site, x: Source, input: Inputs)
    requires Fits(p, s, x) && Orderly(p, s, x, input)
    ensures x.rest.status.Running? && Here(p, s, x).Some? ==> Home(p, s, x.rest)
  {
    hide Home, Tame, Apart, Conc;
  }

  lemma SourceStepHolds(p: Program, s: Site, x: Source, image: seq<string>, debug: bool, input: Inputs)
    requires Accepted(p) && image == ImageOf(p, debug) && Fits(p, s, x) && InPlace(p, s, Conc(p, s, x), image)
    requires x.rest.status.Running? && Here(p, s, x).Some? ==> Home(p, s, x.rest)
    ensures Valid(Conc(p, s, x)) && Step(Conc(p, s, x), input) == Conc(p, s, SourceStep(p, s, x, input))
  {
    hide Accepted, Fits, InPlace, Conc, Step, Home, Here, ImageOf;
    FitsValid(p, s, x);
    if x.rest.status.Running? {
      StepIsSourceStep(p, s, x, image, debug, input);
    } else {
      StoppedStays(Conc(p, s, x), input);
    }
  }

  /** The k-th state of the source run. */
  function StateAt(p: Program, s: Site, x: Source, ins: seq<Inputs>, k: nat): (r: Source)
    requires Fits(p, s, x) && k <= |ins|
    ensures Fits(p, s, r)
  {
    SourceRun(p, s, x, ins[..k])
  }

  // ---- The kernel ----

  /** In kernel mode the kernel is at one of its lines and spares its image; in user mode a placed
      program runs whose block is apart from the kernel's. */
  ghost predicate KernelOrderly(p: Program, x: Source, input: Inputs)
    requires Fits(p, Site(true, p.first), x)
  {
    var s, m := Site(true, p.first), Conc(p, Site(true, p.first), x);
    x.rest.status.Running? ==>
      if x.rest.kernel then
        Here(p, s, x).Some? && Tame(p, s, Behind(x, Here(p, s, x).value, input), p.lines[Here(p, s, x).value])
      else
        UserReady(m) && StepNonNegative(m, input) && (ProcEnd(m) < p.first || p.first + Length(p.lines) <= ProcStart(m))
  }

  lemma KernelIsOrderly(p: Program, x: Source, input: Inputs)
    requires Fits(p, Site(true, p.first), x) && KernelOrderly(p, x, input)
    ensures Orderly(p, Site(true, p.first), x, input)
  {
    hide UserReady, StepNonNegative, Tame, Length, ProcStart, ProcEnd, CellOf, Step, Apart;
    var s := Site(true, p.first);
    if x.rest.status.Running? && !x.rest.kernel {
      LengthFits(p, s, x);
      UserLeavesKernel(p, s, Conc(p, s, x), input);
    }
  }

  /** A whole system run of a compiled kernel: the machine goes through the states of the source
      run across system calls, returns, traps and timer interrupts; kernel steps are source steps;
      and while a user program runs, no variable of the kernel changes. */
  lemma KernelRun(p: Program, x: Source, image: seq<string>, debug: bool, ins: seq<Inputs>)
    requires Accepted(p) && image == ImageOf(p, debug) && Fits(p, Site(true, p.first), x)
    requires InPlace(p, Site(true, p.first), Conc(p, Site(true, p.first), x), image)
    requires forall k :: 0 <= k < |ins| ==> KernelOrderly(p, StateAt(p, Site(true, p.first), x, ins, k), ins[k])
    ensures Run(Conc(p, Site(true, p.first), x), ins) ==
              Conc(p, Site(true, p.first), SourceRun(p, Site(true, p.first), x, ins))
    ensures forall k :: 0 <= k < |ins| && !StateAt(p, Site(true, p.first), x, ins, k).rest.kernel ==>
                          StateAt(p, Site(true, p.first), x, ins, k + 1).store ==
                              StateAt(p, Site(true, p.first), x, ins, k).store
  {
    hide Accepted, InPlace, Conc, KernelOrderly, SourceRun, ImageOf, Fits, Orderly;
    var s := Site(true, p.first);
    forall k | 0 <= k < |ins|
      ensures Orderly(p, s, StateAt(p, s, x, ins, k), ins[k])
    {
      KernelIsOrderly(p, StateAt(p, s, x, ins, k), ins[k]);
    }
    CompiledRun(p, s, x, image, debug, ins);
    forall k | 0 <= k < |ins| && !StateAt(p, s, x, ins, k).rest.kernel
      ensures StateAt(p, s, x, ins, k + 1).store == StateAt(p, s, x, ins, k).store
    {
      PrefixRun(p, s, x, image, debug, ins, k);
      UserKeepsStore(p, StateAt(p, s, x, ins, k), image, ins[k]);
    }
  }

  lemma PrefixRun(p: Program, s: Site, x: Source, image: seq<string>, debug: bool, ins: seq<Inputs>, k: nat)
    requires Accepted(p) && image == ImageOf(p, debug) && Fits(p, s, x) && InPlace(p, s, Conc(p, s, x), image)
    requires OrderlyRun(p, s, x, ins) && k < |ins|
    ensures InPlace(p, s, Conc(p, s, StateAt(p, s, x, ins, k)), image)
    ensures StateAt(p, s, x, ins, k + 1) == SourceStep(p, s, StateAt(p, s, x, ins, k), ins[k])
  {
    hide Accepted, InPlace, Conc, ImageOf, Fits, Orderly, SourceStep;
    assert ins[..k + 1][..k] == ins[..k];
    forall i | 0 <= i < k
      ensures Orderly(p, s, SourceRun(p, s, x, ins[..k][..i]), ins[..k][i])
    {
      assert ins[..k][..i] == ins[..i];
    }
    CompiledRun(p, s, x, image, debug, ins[..k]);
  }

  lemma UserKeepsStore(p: Program, x: Source, image: seq<string>, input: Inputs)
    requires Accepted(p) && Fits(p, Site(true, p.first), x)
             && InPlace(p, Site(true, p.first), Conc(p, Site(true, p.first), x), image)
    requires KernelOrderly(p, x, input) && !x.rest.kernel
    ensures SourceStep(p, Site(true, p.first), x, input).store == x.store
  {
    hide Accepted, InPlace, UserReady, StepNonNegative, Tame, Length, FixedLength, ProcStart, ProcEnd, CellOf, Step,
      Apart;
    var s := Site(true, p.first);
    if x.rest.status.Running? {
      LengthFits(p, s, x);
      UserLeavesKernel(p, s, Conc(p, s, x), input);
      ForeignStepKeeps(p, s, x, image, input);
    }
  }
}
