/** The disk-copy routine of the firmware image, as machine code run by the CPU: total
    correctness of its loop. */
module Firmware {
  import opened Wrappers
  import opened Text
  import opened Hardware
  import opened Runs
  import opened Stepping
  import opened MachineCode

  /** Cells 23 to 28 read a block and store it. */
  ghost predicate ReadCode(v: Cells)
    requires |v| > MIN_RAM_SIZE
  {
    && Line(v, 23, Copy(Direct(3), Direct(1))) && Line(v, 24, Copy(Direct(4), Direct(2)))
    && Line(v, 25, Copy(Direct(20), Direct(7))) && Line(v, 26, Exec)
    && Line(v, 27, Jump(IfError, Direct(41))) && Line(v, 28, Copy(Direct(8), Indirect(6)))
  }

  /** Cells 29 to 35 increment the target address and the block number. */
  ghost predicate CountCode(v: Cells)
    requires |v| > MIN_RAM_SIZE
  {
    && Line(v, 29, Copy(Direct(6), Direct(1))) && Line(v, 30, Copy(Direct(21), Direct(7)))
    && Line(v, 31, Exec) && Line(v, 32, Copy(Direct(8), Direct(6)))
    && Line(v, 33, Copy(Direct(4), Direct(1))) && Line(v, 34, Exec)
    && Line(v, 35, Copy(Direct(8), Direct(4)))
  }

  /** Cells 36 to 40 continue while blocks remain. */
  ghost predicate CheckCode(v: Cells)
    requires |v| > MIN_RAM_SIZE
  {
    && Line(v, 36, Copy(Direct(4), Direct(1))) && Line(v, 37, Copy(Direct(5), Direct(2)))
    && Line(v, 38, Copy(Direct(22), Direct(7))) && Line(v, 39, Exec)
    && Line(v, 40, Jump(IfTrue, Direct(23)))
  }

  /** The lines of the routine are in place, with its three operation codes in cells 20 to 22. */
  ghost predicate InPlace(v: Cells)
    ensures InPlace(v) ==> |v| > MIN_RAM_SIZE
  {
    && |v| > MIN_RAM_SIZE
    && v[20] == "21" && v[21] == "2" && v[22] == "11"
    && ReadCode(v) && CountCode(v) && CheckCode(v)
  }

  // ---- The three phases of an iteration, on visible cells ----

  function AfterRead(v: Cells, e: int, text: string, f: int): (w: Cells)
    requires |v| > MIN_RAM_SIZE && 0 <= f < |v|
    ensures |w| == |v|
  {
    Charged(v[REG_A := v[REG_C]][REG_B := v[REG_D]][REG_OP := v[20]], e, OP_READ_BLOCK)[REG_RES := text][f := text]
  }

  /** Cells 23 to 28: read the current block and store it at the target address. */
  lemma ReadPhase(m: Machine, ins: seq<Inputs>, v: Cells, disks: map<string, seq<string>>, d: int, f: int, e: int,
                  text: string)
    requires |ins| == 6 && Poised(m, 23, v, disks) && InPlace(v)
    requires Stoi(v[REG_D]) == Some(d) && Stoi(v[REG_F]) == Some(f) && Plain(v, f) && EnergyIn(v) == Some(e)
    requires ReadBlock(disks, v[REG_C], d) == Block(text)
    ensures Poised(Run(m, ins), 29, AfterRead(v, e, text, f), disks)
  {
    hide Decode, IsLine, Step, Stoi, ReadBlock, Run, PrintInt, State, CountCode, CheckCode, Poised;
    assert OpIsText("21", OP_READ_BLOCK) by { CodeTexts(); }
    RunStates(m, ins);
    LinesDecode(v);
    CopyStep(m, ins[0], 23, v, disks, 3, 1);
    var v1 := v[1 := v[3]];
    CopyStep(State(m, ins, 1), ins[1], 24, v1, disks, 4, 2);
    var v2 := v1[2 := v[4]];
    CopyStep(State(m, ins, 2), ins[2], 25, v2, disks, 20, 7);
    var v3 := v2[7 := v[20]];
    ReadBlockStep(State(m, ins, 3), ins[3], 26, v3, disks, e, d, text);
    var v4 := Charged(v3, e, OP_READ_BLOCK)[8 := text];
    JumpStep(State(m, ins, 4), ins[4], 27, v4, disks, IfError, 41);
    CopyToPointerStep(State(m, ins, 5), ins[5], 28, v4, disks, 8, 6, f);
  }

  function Increased(v: Cells, e: int, r: int, n: int): (w: Cells)
    requires |v| > MIN_RAM_SIZE && 0 <= r < |v|
    ensures |w| == |v|
  {
    Charged(v, e, OP_INCR)[REG_RES := PrintInt(n + 1)][r := PrintInt(n + 1)]
  }

  function AfterCount(v: Cells, e: int, d: int, f: int): (w: Cells)
    requires |v| > MIN_RAM_SIZE
    ensures |w| == |v|
  {
    var w := Increased(v[REG_A := v[REG_F]][REG_OP := v[21]], e, REG_F, f);
    Increased(w[REG_A := w[REG_D]], e + 1, REG_D, d)
  }

  /** An increment of REG_A copied to register `r`. */
  lemma IncreaseStep(m: Machine, ins: seq<Inputs>, pc: int, v: Cells, disks: map<string, seq<string>>, r: int, n: int,
                     e: int)
    requires |ins| == 2 && Poised(m, pc, v, disks) && Plain(v, r) && r !in {REG_A, REG_OP, REG_RES, SYS_ENERGY}
    requires Holds(v, pc, Exec) && OpIs(v, OP_INCR) && Holds(v, pc + 1, Copy(Direct(REG_RES), Direct(r)))
    requires pc > 20 && EnergyIn(v) == Some(e) && PrintInt(n) == v[REG_A] && InInt(n)
    ensures Poised(Run(m, ins), pc + 2, Increased(v, e, r, n), disks)
  {
    hide Decode, IsLine, Step, Stoi, Run, State, Poised;
    RunStates(m, ins);
    IncreaseOf(n, ins[0]);
    ComputeStep(m, ins[0], pc, v, disks, OP_INCR, e, ResultOf(PrintInt(n + 1)));
    var w := Charged(v, e, OP_INCR)[REG_RES := PrintInt(n + 1)];
    CopyStep(State(m, ins, 1), ins[1], pc + 1, w, disks, REG_RES, r);
  }

  /** Cells 29 to 35: the target address and the block number go up by one. */
  lemma CountPhase(m: Machine, ins: seq<Inputs>, v: Cells, disks: map<string, seq<string>>, d: int, f: int, e: int)
    requires |ins| == 7 && Poised(m, 29, v, disks) && InPlace(v) && InInt(d) && InInt(f)
    requires v[REG_D] == PrintInt(d) && v[REG_F] == PrintInt(f) && EnergyIn(v) == Some(e) && InInt(e + 1)
    ensures Poised(Run(m, ins), 36, AfterCount(v, e, d, f), disks)
  {
    hide Decode, IsLine, Step, Stoi, Run, PrintInt, State, ReadCode, CheckCode, Poised;
    assert OpIsText("2", OP_INCR) by { CodeTexts(); }
    StoiPrint(e + 1);
    RunStates(m, ins);
    LinesDecode(v);
    CopyStep(m, ins[0], 29, v, disks, 6, 1);
    var v1 := v[1 := v[6]];
    CopyStep(State(m, ins, 1), ins[1], 30, v1, disks, 21, 7);
    var v2 := v1[7 := v[21]];
    IncreaseStep(State(m, ins, 2), ins[2..4], 31, v2, disks, REG_F, f, e);
    SplitRun(m, ins, 2, ins[2..4]);
    var v3 := Increased(v2, e, REG_F, f);
    CopyStep(State(m, ins, 4), ins[4], 33, v3, disks, 4, 1);
    var v4 := v3[1 := v3[4]];
    IncreaseStep(State(m, ins, 5), ins[5..7], 34, v4, disks, REG_D, d, e + 1);
    SplitRun(m, ins, 5, ins[5..7]);
  }

  function AfterCheck(v: Cells, e: int, more: bool): (w: Cells)
    requires |v| > MIN_RAM_SIZE
    ensures |w| == |v|
  {
    Charged(v[REG_A := v[REG_D]][REG_B := v[REG_E]][REG_OP := v[22]], e, OP_CMP_LE)[REG_BOOL := if more then "1"
      else "0"]
  }

  /** Cells 36 to 40: back to the first instruction while blocks remain. */
  lemma CheckPhase(m: Machine, ins: seq<Inputs>, v: Cells, disks: map<string, seq<string>>, d: int, last: int, e: int)
    requires |ins| == 5 && Poised(m, 36, v, disks) && InPlace(v) && InInt(d) && InInt(last)
    requires v[REG_D] == PrintInt(d) && v[REG_E] == PrintInt(last) && EnergyIn(v) == Some(e)
    ensures Poised(Run(m, ins), if d <= last then 23 else 41, AfterCheck(v, e, d <= last), disks)
  {
    hide Decode, IsLine, Step, Stoi, Run, PrintInt, State, ReadCode, CountCode, Poised, Compute;
    assert OpIsText("11", OP_CMP_LE) by { CodeTexts(); }
    RunStates(m, ins);
    LinesDecode(v);
    CopyStep(m, ins[0], 36, v, disks, 4, 1);
    var v1 := v[1 := v[4]];
    CopyStep(State(m, ins, 1), ins[1], 37, v1, disks, 5, 2);
    var v2 := v1[2 := v[5]];
    CopyStep(State(m, ins, 2), ins[2], 38, v2, disks, 22, 7);
    var v3 := v2[7 := v[22]];
    CompareOf(d, last, ins[3]);
    ComputeStep(State(m, ins, 3), ins[3], 39, v3, disks, OP_CMP_LE, e, FlagOf(d <= last));
    JumpStep(State(m, ins, 4), ins[4], 40, AfterCheck(v, e, d <= last), disks, IfTrue, 23);
  }

  // ---- The loop ----

  /** The loop registers: the current block, the last block, the target address, the energy. */
  ghost predicate LoopCells(v: Cells, d: int, last: int, f: int, e: int) {
    && InPlace(v) && v[REG_D] == PrintInt(d) && v[REG_E] == PrintInt(last)
    && v[REG_F] == PrintInt(f) && EnergyIn(v) == Some(e)
  }

  function AfterIteration(v: Cells, d: int, last: int, f: int, e: int, text: string): (w: Cells)
    requires |v| > MIN_RAM_SIZE && 0 <= f < |v|
    ensures |w| == |v|
  {
    AfterCheck(AfterCount(AfterRead(v, e, text, f), e + 10, d, f), e + 12, d + 1 <= last)
  }

  lemma StaysInPlace(v: Cells, w: Cells)
    requires InPlace(v) && |w| == |v| && forall i :: 20 <= i <= 40 ==> w[i] == v[i]
    ensures InPlace(w)
  {
    hide IsLine;
  }

  lemma ReadCells(v: Cells, d: int, last: int, f: int, e: int, text: string)
    requires LoopCells(v, d, last, f, e) && 40 < f < |v| && InInt(e + 10)
    ensures var w := AfterRead(v, e, text, f);
            && LoopCells(w, d, last, f, e + 10) && w[f] == text
            && forall i :: 0 <= i < |v| && !Scratch(i) && i != f ==> w[i] == v[i]
  {
    hide PrintInt, Stoi, ReadCode, CountCode, CheckCode;
    StoiPrint(e + 10);
    StaysInPlace(v, AfterRead(v, e, text, f));
  }

  lemma CountCells(v: Cells, d: int, last: int, f: int, e: int)
    requires LoopCells(v, d, last, f, e) && InInt(e + 1) && InInt(e + 2)
    ensures var w := AfterCount(v, e, d, f);
            && LoopCells(w, d + 1, last, f + 1, e + 2)
            && forall i :: 0 <= i < |v| && !Scratch(i) && i !in {REG_D, REG_F} ==> w[i] == v[i]
  {
    hide PrintInt, Stoi, ReadCode, CountCode, CheckCode;
    StoiPrint(e + 2);
    StaysInPlace(v, AfterCount(v, e, d, f));
  }

  lemma CheckCells(v: Cells, d: int, last: int, f: int, e: int, more: bool)
    requires LoopCells(v, d, last, f, e) && InInt(e + 1)
    ensures var w := AfterCheck(v, e, more);
            && LoopCells(w, d, last, f, e + 1)
            && forall i :: 0 <= i < |v| && !Scratch(i) ==> w[i] == v[i]
  {
    hide PrintInt, Stoi, ReadCode, CountCode, CheckCode;
    StoiPrint(e + 1);
    StaysInPlace(v, AfterCheck(v, e, more));
  }

  lemma IterationCells(v: Cells, d: int, last: int, f: int, e: int, text: string)
    requires LoopCells(v, d, last, f, e) && 40 < f < |v| && 0 <= e && InInt(e + 13)
    ensures var w := AfterIteration(v, d, last, f, e, text);
            && LoopCells(w, d + 1, last, f + 1, e + 13) && w[f] == text
            && forall i :: 0 <= i < |v| && !Scratch(i) && i !in {REG_D, REG_F, f} ==> w[i] == v[i]
  {
    hide PrintInt, Stoi, AfterRead, AfterCount, AfterCheck, InPlace;
    var r := AfterRead(v, e, text, f);
    ReadCells(v, d, last, f, e, text);
    CountCells(r, d, last, f, e + 10);
    CheckCells(AfterCount(r, e + 10, d, f), d + 1, last, f + 1, e + 12, d + 1 <= last);
  }

  /** One iteration copies one block. */
  lemma Iteration(m: Machine, ins: seq<Inputs>, v: Cells, disks: map<string, seq<string>>, d: int, last: int, f: int,
                  e: int, text: string)
    requires |ins| == 18 && Poised(m, 23, v, disks) && LoopCells(v, d, last, f, e)
    requires InInt(d) && InInt(d + 1) && InInt(last) && 40 < f < |v| && InInt(f) && 0 <= e && InInt(e + 13)
    requires ReadBlock(disks, v[REG_C], d) == Block(text)
    ensures Poised(Run(m, ins), if d + 1 <= last then 23 else 41, AfterIteration(v, d, last, f, e, text), disks)
  {
    hide PrintInt, Decode, IsLine, Stoi, Run, Poised, InPlace, ReadBlock, AfterRead, AfterCount, AfterCheck;
    StoiPrint(d);
    StoiPrint(f);
    ReadCells(v, d, last, f, e, text);
    ReadPhase(m, ins[..6], v, disks, d, f, e, text);
    var m1, v1 := Run(m, ins[..6]), AfterRead(v, e, text, f);
    CountPhase(m1, ins[6..13], v1, disks, d, f, e + 10);
    var m2, v2 := Run(m1, ins[6..13]), AfterCount(v1, e + 10, d, f);
    CountCells(v1, d, last, f, e + 10);
    CheckPhase(m2, ins[13..], v2, disks, d + 1, last, e + 12);
    assert ins[..6] + ins[6..13] == ins[..13] && ins[..13] + ins[13..] == ins;
    RunAppend(m, ins[..6], ins[6..13]);
    RunAppend(m, ins[..13], ins[13..]);
  }

  /** Blocks d..last of the disk are readable; `blocks` are their contents. */
  ghost predicate Blocks(disks: map<string, seq<string>>, disk: string, d: int, blocks: seq<string>) {
    forall k :: 0 <= k < |blocks| ==> ReadBlock(disks, disk, d + k) == Block(blocks[k])
  }

  /** The memory after the loop: the blocks stored from `f` on, the registers advanced and
      every other cell that is not scratch unchanged. */
  ghost predicate Copied(v: Cells, w: Cells, f: int, blocks: seq<string>) {
    && |w| == |v| && 0 <= f
    && (forall i :: f <= i < f + |blocks| && i < |v| ==> w[i] == blocks[i - f])
    && (forall i :: 0 <= i < |v| && !Scratch(i) && i !in {REG_D, REG_F} && !(f <= i < f + |blocks|) ==> w[i] == v[i])
  }

  /** Total correctness of the copy loop: started at cell 23 with blocks d..last readable and
      the target range above the routine, the machine reaches cell 41 after 18 steps a block,
      with the blocks in memory, REG_D past the last block and REG_F past the target range. */
  lemma {:induction false} LoopCorrect(m: Machine, ins: seq<Inputs>, v: Cells, disks: map<string, seq<string>>,
                                       d: int, last: int, f: int, e: int, blocks: seq<string>) returns (w: Cells)
    requires Poised(m, 23, v, disks) && LoopCells(v, d, last, f, e)
    requires d <= last && |blocks| == last - d + 1 && |ins| == 18 * |blocks| && Blocks(disks, v[REG_C], d, blocks)
    requires InInt(d) && InInt(last + 1) && 40 < f && f + |blocks| <= |v| && InInt(|v|)
    requires 0 <= e && InInt(e + 13 * |blocks|)
    ensures Poised(Run(m, ins), 41, w, disks) && Copied(v, w, f, blocks)
    ensures LoopCells(w, last + 1, last, f + |blocks|, e + 13 * |blocks|)
    decreases last - d
  {
    hide PrintInt, Decode, IsLine, Stoi, Run, Poised, InPlace, ReadBlock, AfterIteration;
    assert ReadBlock(disks, v[REG_C], d + 0) == Block(blocks[0]);
    Iteration(m, ins[..18], v, disks, d, last, f, e, blocks[0]);
    IterationCells(v, d, last, f, e, blocks[0]);
    var v1 := AfterIteration(v, d, last, f, e, blocks[0]);
    var rest := blocks[1..];
    if d == last {
      w := v1;
      assert ins[..18] == ins;
    } else {
      assert Blocks(disks, v1[REG_C], d + 1, rest) by {
        forall k | 0 <= k < |rest|
          ensures ReadBlock(disks, v1[REG_C], d + 1 + k) == Block(rest[k])
        {
          assert d + 1 + k == d + (k + 1);
        }
      }
      w := LoopCorrect(Run(m, ins[..18]), ins[18..], v1, disks, d + 1, last, f + 1, e + 13, rest);
      assert ins[..18] + ins[18..] == ins;
      RunAppend(m, ins[..18], ins[18..]);
    }
  }
}
