/** Kernel-mode execution on visible cells: one lemma per kind of instruction, for reasoning
    about machine code. The visible cells leave out PC and LAST_KEY, which every step may change. */
module Stepping {
  import opened Wrappers
  import opened Text
  import opened Hardware
  import opened Isolation
  import opened Runs

  type Cells = seq<string>

  function Visible(m: Machine): (v: Cells)
    requires Valid(m)
    ensures |v| == |m.cells|
  {
    m.cells[PROGRAM_COUNTER := ""][LAST_KEY := ""]
  }

  /** A running kernel whose next instruction is fetched from cell `pc` and whose visible cells
      and disks are `v` and `disks`. */
  ghost predicate Poised(m: Machine, pc: int, v: Cells, disks: map<string, seq<string>>)
    ensures Poised(m, pc, v, disks) ==> Valid(m) && |v| == |m.cells|
  {
    && Valid(m) && m.kernel && m.status.Running?
    && InInt(pc) && InInt(pc - 1) && m.cells[PROGRAM_COUNTER] == PrintInt(pc - 1)
    && Visible(m) == v && m.disks == disks
  }

  /** A cell that code may be fetched from or data kept in. */
  predicate Plain(v: Cells, i: int) {
    1 <= i < |v| && i != PROGRAM_COUNTER && i != LAST_KEY
  }

  predicate Holds(v: Cells, pc: int, instr: Instr) {
    Plain(v, pc) && pc < INT_MAX && Decode(v[pc]) == instr
  }

  lemma StepExecutes(m: Machine, input: Inputs, pc: int, v: Cells, disks: map<string, seq<string>>, instr: Instr)
    requires Poised(m, pc, v, disks) && Holds(v, pc, instr) && !instr.DebugMark?
    ensures var n := Ready(m, input);
            && Poised(n, pc + 1, v, disks)
            && (Execute(n, instr, input).signal.Done? && Execute(n, instr, input).m.kernel ==>
                  Step(m, input) == Execute(n, instr, input).m)
  {
    hide Execute, Decode;
    StoiPrint(pc - 1);
  }

  lemma PutVisible(m: Machine, pc: int, v: Cells, disks: map<string, seq<string>>, d: int, t: string)
    requires Poised(m, pc, v, disks) && Plain(v, d)
    ensures Poised(Put(m, d, t), pc, v[d := t], disks)
  {
  }

  lemma CellVisible(m: Machine, pc: int, v: Cells, disks: map<string, seq<string>>)
    requires Poised(m, pc, v, disks)
    ensures forall i :: Plain(v, i) ==> m.cells[i] == v[i]
    ensures Valid(m) && m.kernel && m.status.Running? && m.cells[PROGRAM_COUNTER] == PrintInt(pc - 1)
            && m.disks == disks
  {
  }

  /** `copy s to d`. */
  lemma CopyStep(m: Machine, input: Inputs, pc: int, v: Cells, disks: map<string, seq<string>>, s: int, d: int)
    requires Poised(m, pc, v, disks) && Holds(v, pc, Copy(Direct(s), Direct(d))) && Plain(v, s) && Plain(v, d)
    ensures Poised(Step(m, input), pc + 1, v[d := v[s]], disks)
  {
    hide Decode, Step, Poised, Ready;
    StepExecutes(m, input, pc, v, disks, Copy(Direct(s), Direct(d)));
    CellVisible(Ready(m, input), pc + 1, v, disks);
    PutVisible(Ready(m, input), pc + 1, v, disks, d, v[s]);
  }

  /** `copy PROGRAM_COUNTER to d`: the address of this instruction. */
  lemma CopyPcStep(m: Machine, input: Inputs, pc: int, v: Cells, disks: map<string, seq<string>>, d: int)
    requires Poised(m, pc, v, disks) && Holds(v, pc, Copy(Direct(PROGRAM_COUNTER), Direct(d))) && Plain(v, d)
    ensures Poised(Step(m, input), pc + 1, v[d := PrintInt(pc)], disks)
  {
    hide Decode, Step, Poised, Ready;
    StepExecutes(m, input, pc, v, disks, Copy(Direct(PROGRAM_COUNTER), Direct(d)));
    CellVisible(Ready(m, input), pc + 1, v, disks);
    PutVisible(Ready(m, input), pc + 1, v, disks, d, PrintInt(pc));
  }

  /** `copy s to *p`. */
  lemma CopyToPointerStep(m: Machine, input: Inputs, pc: int, v: Cells, disks: map<string, seq<string>>, s: int,
                          p: int, d: int)
    requires Poised(m, pc, v, disks) && Holds(v, pc, Copy(Direct(s), Indirect(p)))
    requires Plain(v, s) && Plain(v, p) && Stoi(v[p]) == Some(d) && Plain(v, d)
    ensures Poised(Step(m, input), pc + 1, v[d := v[s]], disks)
  {
    hide Decode, Step, Poised, Ready, Stoi;
    StepExecutes(m, input, pc, v, disks, Copy(Direct(s), Indirect(p)));
    CellVisible(Ready(m, input), pc + 1, v, disks);
    PutVisible(Ready(m, input), pc + 1, v, disks, d, v[s]);
  }

  /** `copy *p to d`. */
  lemma CopyFromPointerStep(m: Machine, input: Inputs, pc: int, v: Cells, disks: map<string, seq<string>>, p: int,
                            s: int, d: int)
    requires Poised(m, pc, v, disks) && Holds(v, pc, Copy(Indirect(p), Direct(d)))
    requires Plain(v, p) && Stoi(v[p]) == Some(s) && Plain(v, s) && Plain(v, d)
    ensures Poised(Step(m, input), pc + 1, v[d := v[s]], disks)
  {
    hide Decode, Step, Poised, Ready, Stoi;
    StepExecutes(m, input, pc, v, disks, Copy(Indirect(p), Direct(d)));
    CellVisible(Ready(m, input), pc + 1, v, disks);
    PutVisible(Ready(m, input), pc + 1, v, disks, d, v[s]);
  }

  /** `write text to d`, as the source-level instruction and as a pooled literal. */
  lemma WriteStep(m: Machine, input: Inputs, pc: int, v: Cells, disks: map<string, seq<string>>, text: string, d: int)
    requires Poised(m, pc, v, disks) && Holds(v, pc, Copy(Literal(text), Direct(d))) && Plain(v, d)
    ensures Poised(Step(m, input), pc + 1, v[d := text], disks)
  {
    hide Decode, Step, Poised, Ready;
    StepExecutes(m, input, pc, v, disks, Copy(Literal(text), Direct(d)));
    CellVisible(Ready(m, input), pc + 1, v, disks);
    PutVisible(Ready(m, input), pc + 1, v, disks, d, text);
  }

  predicate TakenOn(v: Cells, cond: Condition)
    requires |v| > REG_ERROR
  {
    match cond
    case Always => true
    case IfTrue => v[REG_BOOL] == "1"
    case IfFalse => v[REG_BOOL] == "0"
    case IfError => v[REG_ERROR] != ""
  }

  lemma SetPcPoised(m: Machine, pc: int, v: Cells, disks: map<string, seq<string>>, target: int)
    requires Poised(m, pc, v, disks) && InInt(target) && InInt(target - 1)
    ensures Poised(SetPc(m, target - 1), target, v, disks)
  {
  }

  lemma JumpStep(m: Machine, input: Inputs, pc: int, v: Cells, disks: map<string, seq<string>>, cond: Condition,
                 target: int)
    requires Poised(m, pc, v, disks) && Holds(v, pc, Jump(cond, Direct(target)))
    requires InInt(target) && InInt(target - 1)
    ensures Poised(Step(m, input), if TakenOn(v, cond) then target else pc + 1, v, disks)
  {
    hide Decode, Step, Poised, Ready, SetPc;
    StepExecutes(m, input, pc, v, disks, Jump(cond, Direct(target)));
    CellVisible(Ready(m, input), pc + 1, v, disks);
    SetPcPoised(Ready(m, input), pc + 1, v, disks, target);
    assert SetPc(Ready(m, input), target - 1).kernel by { SetPcKeepsMode(Ready(m, input), target - 1); }
  }

  lemma SetPcKeepsMode(m: Machine, pc: int)
    requires Valid(m)
    ensures SetPc(m, pc).kernel == m.kernel
  {
  }

  lemma JumpByPointerStep(m: Machine, input: Inputs, pc: int, v: Cells, disks: map<string, seq<string>>, p: int,
                          target: int)
    requires Poised(m, pc, v, disks) && Holds(v, pc, Jump(Always, Indirect(p)))
    requires Plain(v, p) && Stoi(v[p]) == Some(target) && InInt(target) && InInt(target - 1)
    ensures Poised(Step(m, input), target, v, disks)
  {
    hide Decode, Step, Poised, Ready, Stoi, SetPc;
    StepExecutes(m, input, pc, v, disks, Jump(Always, Indirect(p)));
    CellVisible(Ready(m, input), pc + 1, v, disks);
    SetPcPoised(Ready(m, input), pc + 1, v, disks, target);
    SetPcKeepsMode(Ready(m, input), target - 1);
  }

  predicate OpIs(v: Cells, op: int)
    requires |v| > REG_OP
  {
    v[REG_OP] != "" && Stoi(v[REG_OP]) == Some(op)
  }

  function EnergyIn(v: Cells): Option<int>
    requires |v| > SYS_ENERGY
  {
    if v[SYS_ENERGY] == "" then Some(0) else Stoi(v[SYS_ENERGY])
  }

  lemma SameEnergy(v: Cells, w: Cells)
    requires |v| > SYS_ENERGY && |w| > SYS_ENERGY && v[SYS_ENERGY] == w[SYS_ENERGY]
    ensures EnergyIn(v) == EnergyIn(w)
  {
  }

  function Charged(v: Cells, e: int, op: int): (w: Cells)
    requires |v| > SYS_ENERGY
    ensures |w| == |v|
  {
    v[SYS_ENERGY := PrintInt(e + EnergyCost(op))][REG_ERROR := ""]
  }

  lemma OperationStep(m: Machine, input: Inputs, pc: int, v: Cells, disks: map<string, seq<string>>, op: int, e: int)
    requires Poised(m, pc, v, disks) && Holds(v, pc, Exec) && OpIs(v, op) && EnergyIn(v) == Some(e)
    ensures var c := Charge(Ready(m, input), e, op);
            var o := Perform(c, op, v[REG_RES], v[REG_ERROR], input);
            && Poised(c, pc + 1, Charged(v, e, op), disks)
            && (o.signal.Done? && o.m.kernel ==> Step(m, input) == o.m)
  {
    hide Decode, Step, Poised, Ready, Stoi, Perform;
    StepExecutes(m, input, pc, v, disks, Exec);
    var n := Ready(m, input);
    CellVisible(n, pc + 1, v, disks);
    PutVisible(n, pc + 1, v, disks, SYS_ENERGY, PrintInt(e + EnergyCost(op)));
    PutVisible(Put(n, SYS_ENERGY, PrintInt(e + EnergyCost(op))), pc + 1, v[SYS_ENERGY := PrintInt(e + EnergyCost(op))],
               disks, REG_ERROR, "");
  }

  function Stored(v: Cells, i: int, t: Option<string>): (w: Cells)
    requires 0 <= i < |v|
    ensures |w| == |v|
  {
    match t case None => v case Some(s) => v[i := s]
  }

  lemma StoreVisible(m: Machine, pc: int, v: Cells, disks: map<string, seq<string>>, i: int, t: Option<string>)
    requires Poised(m, pc, v, disks) && Plain(v, i)
    ensures Poised(Store(m, i, t), pc, Stored(v, i, t), disks)
  {
    hide Poised;
    if t.Some? {
      PutVisible(m, pc, v, disks, i, t.value);
    }
  }

  /** A computing operation. */
  lemma ComputeStep(m: Machine, input: Inputs, pc: int, v: Cells, disks: map<string, seq<string>>, op: int, e: int,
                    alu: Alu)
    requires Poised(m, pc, v, disks) && Holds(v, pc, Exec) && OpIs(v, op) && EnergyIn(v) == Some(e)
    requires IsComputing(op) && alu.signal.Done?
    requires alu == Compute(op, v[REG_A], v[REG_B], v[REG_C], v[REG_D], input)
    ensures Poised(Step(m, input), pc + 1,
                   Stored(Stored(Stored(Charged(v, e, op), REG_RES, alu.res), REG_BOOL, alu.flag), REG_ERROR, alu.err),
                   disks)
  {
    hide Decode, Step, Compute, Stoi, Charge, Ready, Poised, Store, Stored;
    OperationStep(m, input, pc, v, disks, op, e);
    var c := Charge(Ready(m, input), e, op);
    var w := Charged(v, e, op);
    CellVisible(c, pc + 1, w, disks);
    StoreVisible(c, pc + 1, w, disks, REG_RES, alu.res);
    var c1, w1 := Store(c, REG_RES, alu.res), Stored(w, REG_RES, alu.res);
    StoreVisible(c1, pc + 1, w1, disks, REG_BOOL, alu.flag);
    var c2, w2 := Store(c1, REG_BOOL, alu.flag), Stored(w1, REG_BOOL, alu.flag);
    StoreVisible(c2, pc + 1, w2, disks, REG_ERROR, alu.err);
    CellVisible(Store(c2, REG_ERROR, alu.err), pc + 1, Stored(w2, REG_ERROR, alu.err), disks);
  }

  /** An instruction that fails in kernel mode stops the machine: an exception crashes it, a memory
      fault halts it. */
  lemma FailedStep(m: Machine, input: Inputs, pc: int, v: Cells, disks: map<string, seq<string>>, instr: Instr)
    requires Poised(m, pc, v, disks) && Holds(v, pc, instr) && !instr.DebugMark?
    ensures Poised(Ready(m, input), pc + 1, v, disks)
    ensures var o := Execute(Ready(m, input), instr, input);
            && (o.signal.Thrown? && o.m.kernel ==> Step(m, input).status.Crashed?)
            && (o.signal.MemoryFault? && o.m.kernel ==> Step(m, input).status.Halted?)
  {
    hide Execute, Decode;
    StoiPrint(pc - 1);
  }

  /** `copy *p to d` through a text that is no number, or to a cell outside RAM. */
  lemma CopyFromPointerFails(m: Machine, input: Inputs, pc: int, v: Cells, disks: map<string, seq<string>>, p: int,
                             d: int)
    requires Poised(m, pc, v, disks) && Holds(v, pc, Copy(Indirect(p), Direct(d))) && Plain(v, p)
    ensures Stoi(v[p]).None? ==> Step(m, input).status.Crashed?
    ensures Stoi(v[p]).Some? && !(1 <= Stoi(v[p]).value < |v|) ==> Step(m, input).status.Halted?
  {
    hide Decode, Step, Poised, Ready, Stoi;
    FailedStep(m, input, pc, v, disks, Copy(Indirect(p), Direct(d)));
    CellVisible(Ready(m, input), pc + 1, v, disks);
  }

  /** `jump *p` through a text that is no number. */
  lemma JumpByPointerFails(m: Machine, input: Inputs, pc: int, v: Cells, disks: map<string, seq<string>>, p: int)
    requires Poised(m, pc, v, disks) && Holds(v, pc, Jump(Always, Indirect(p))) && Plain(v, p) && Stoi(v[p]).None?
    ensures Step(m, input).status.Crashed?
  {
    hide Decode, Step, Poised, Ready, Stoi;
    FailedStep(m, input, pc, v, disks, Jump(Always, Indirect(p)));
    CellVisible(Ready(m, input), pc + 1, v, disks);
  }

  /** A computing operation that throws, on a text that `std::stoi` refuses, stops the machine. */
  lemma ThrowStep(m: Machine, input: Inputs, pc: int, v: Cells, disks: map<string, seq<string>>, op: int, e: int)
    requires Poised(m, pc, v, disks) && Holds(v, pc, Exec) && OpIs(v, op) && EnergyIn(v) == Some(e) && IsComputing(op)
    requires Compute(op, v[REG_A], v[REG_B], v[REG_C], v[REG_D], input).signal.Thrown?
    ensures Step(m, input).status.Crashed?
  {
    hide Decode, Compute, Stoi, Charge, Ready, Poised, Core, Fetch;
    FetchesExec(m, input, pc, v, disks);
    CellVisible(m, pc, v, disks);
    var n := Ready(m, input);
    CellVisible(n, pc + 1, v, disks);
    ChargedVisible(n, pc + 1, v, disks, e, op);
    var c := Charge(n, e, op);
    CellVisible(c, pc + 1, Charged(v, e, op), disks);
    ThrownCrashes(m, input, op, e);
  }

  lemma ChargedVisible(m: Machine, pc: int, v: Cells, disks: map<string, seq<string>>, e: int, op: int)
    requires Poised(m, pc, v, disks)
    ensures Poised(Charge(m, e, op), pc, Charged(v, e, op), disks)
  {
    hide Poised;
    CellVisible(m, pc, v, disks);
    PutVisible(m, pc, v, disks, SYS_ENERGY, PrintInt(e + EnergyCost(op)));
    PutVisible(Put(m, SYS_ENERGY, PrintInt(e + EnergyCost(op))), pc, v[SYS_ENERGY := PrintInt(e + EnergyCost(op))],
        disks, REG_ERROR, "");
  }

  lemma FetchesExec(m: Machine, input: Inputs, pc: int, v: Cells, disks: map<string, seq<string>>)
    requires Poised(m, pc, v, disks) && Holds(v, pc, Exec)
    ensures Poised(Ready(m, input), pc + 1, v, disks) && Fetch(m).signal.Done? && Decode(Fetch(m).value) == Exec
  {
    hide Decode;
    StoiPrint(pc - 1);
  }

  lemma ThrownCrashes(m: Machine, input: Inputs, op: int, e: int)
    requires Valid(m) && m.kernel && m.status.Running? && Fetch(m).signal.Done? && Decode(Fetch(m).value) == Exec
    requires var n, c := Ready(m, input), Charge(Ready(m, input), e, op);
             && n.kernel && n.cells[REG_OP] != "" && Stoi(n.cells[REG_OP]) == Some(op) && EnergyOf(n) == Some(e)
             && IsComputing(op)
             && Compute(op, c.cells[REG_A], c.cells[REG_B], c.cells[REG_C], c.cells[REG_D], input).signal.Thrown?
    ensures Step(m, input).status.Crashed?
  {
    hide Decode, Compute, Stoi, Charge, Advance, Poll, Fetch;
    assert Ready(m, input) == Poll(Advance(m), input);
    var o := Execute(Ready(m, input), Exec, input);
    assert o.signal.Thrown?;
  }

  /** Reading a disk block into RES. */
  lemma ReadBlockStep(m: Machine, input: Inputs, pc: int, v: Cells, disks: map<string, seq<string>>, e: int, n: int,
                      text: string)
    requires Poised(m, pc, v, disks) && Holds(v, pc, Exec) && OpIs(v, OP_READ_BLOCK) && EnergyIn(v) == Some(e)
    requires Stoi(v[REG_B]) == Some(n) && ReadBlock(disks, v[REG_A], n) == Block(text)
    ensures Poised(Step(m, input), pc + 1, Charged(v, e, OP_READ_BLOCK)[REG_RES := text], disks)
  {
    hide Decode, Step, Stoi, Charge, Ready, ReadBlock, Poised;
    OperationStep(m, input, pc, v, disks, OP_READ_BLOCK, e);
    var c := Charge(Ready(m, input), e, OP_READ_BLOCK);
    var w := Charged(v, e, OP_READ_BLOCK);
    CellVisible(c, pc + 1, w, disks);
    PutVisible(c, pc + 1, w, disks, REG_RES, text);
    CellVisible(Put(c, REG_RES, text), pc + 1, w[REG_RES := text], disks);
  }

  /** Display output, which leaves memory alone. */
  lemma OutputStep(m: Machine, input: Inputs, pc: int, v: Cells, disks: map<string, seq<string>>, e: int, op: int)
    requires Poised(m, pc, v, disks) && Holds(v, pc, Exec) && OpIs(v, op) && (op == OP_DISPLAY || op == OP_DISPLAY_LN)
    requires EnergyIn(v) == Some(e)
    ensures Poised(Step(m, input), pc + 1, Charged(v, e, op), disks)
  {
    hide Decode, Step, Stoi, Charge, Ready, Poised;
    OperationStep(m, input, pc, v, disks, op, e);
    CellVisible(Charge(Ready(m, input), e, op), pc + 1, Charged(v, e, op), disks);
  }

  /** Drawing the bitmap held in cells first..last-1. */
  lemma RenderStep(m: Machine, input: Inputs, pc: int, v: Cells, disks: map<string, seq<string>>, e: int, first: int,
                   last: int)
    requires Poised(m, pc, v, disks) && Holds(v, pc, Exec) && OpIs(v, OP_RENDER_BITMAP) && EnergyIn(v) == Some(e)
    requires Stoi(v[REG_A]) == Some(first) && Stoi(v[REG_B]) == Some(last) && 1 <= first <= last <= |v|
    requires Stoi(v[REG_C]).Some? && Stoi(v[REG_D]).Some?
    ensures Poised(Step(m, input), pc + 1, Charged(v, e, OP_RENDER_BITMAP), disks)
  {
    hide Decode, Step, Stoi, Charge, Ready, Poised;
    OperationStep(m, input, pc, v, disks, OP_RENDER_BITMAP, e);
    CellVisible(Charge(Ready(m, input), e, OP_RENDER_BITMAP), pc + 1, Charged(v, e, OP_RENDER_BITMAP), disks);
  }

  /** Consecutive states of a run are steps apart. */
  lemma RunStates(m: Machine, ins: seq<Inputs>)
    requires Valid(m)
    ensures State(m, ins, 0) == m && State(m, ins, |ins|) == Run(m, ins)
    ensures forall k :: 0 <= k < |ins| ==> State(m, ins, k + 1) == Step(State(m, ins, k), ins[k])
  {
    assert ins[..0] == [] && ins[..|ins|] == ins;
    forall k | 0 <= k < |ins|
      ensures State(m, ins, k + 1) == Step(State(m, ins, k), ins[k])
    {
      StateStep(m, ins, k);
    }
  }
}
