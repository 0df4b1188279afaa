/** The system call handler, as machine code: it checks the call number and jumps through the
    table of handlers. */
module Dispatch {
  import opened Wrappers
  import opened Text
  import opened Hardware
  import opened Runs
  import opened Stepping
  import opened MachineCode
  import L = Layout
  import E = Encoding
  import A = Assembler

  /** Where the linker put the handler, its constants and its variables. `table` is the variable
      of call 0; the variables of the other calls follow it. */
  datatype Handler = Handler(entry: int, unknown: int, isNum: int, zero: int, less: int, add: int,
                             arg1: int, arg2: int, arg3: int, arg4: int, number: int, count: int, table: int,
                                 chosen: int)

  ghost predicate EntryCode(v: Cells, h: Handler) {
    && Holds(v, h.entry, Cp(REG_A, h.arg1)) && Holds(v, h.entry + 1, Cp(REG_B, h.arg2))
    && Holds(v, h.entry + 2, Cp(REG_C, h.arg3))
    && Holds(v, h.entry + 3, Cp(REG_D, h.arg4)) && Holds(v, h.entry + 4, Cp(REG_E, h.number))
  }

  ghost predicate NumberCode(v: Cells, h: Handler) {
    && Holds(v, h.entry + 5, Cp(h.number, REG_A)) && Holds(v, h.entry + 6, Cp(h.isNum, REG_OP))
    && Holds(v, h.entry + 7, Exec)
    && Holds(v, h.entry + 8, Jump(IfFalse, Direct(h.unknown)))
  }

  ghost predicate RangeCode(v: Cells, h: Handler) {
    && Holds(v, h.entry + 9, Cp(h.zero, REG_B)) && Holds(v, h.entry + 10, Cp(h.less, REG_OP))
    && Holds(v, h.entry + 11, Exec)
    && Holds(v, h.entry + 12, Jump(IfTrue, Direct(h.unknown)))
    && Holds(v, h.entry + 13, Cp(h.count, REG_B)) && Holds(v, h.entry + 14, Exec)
    && Holds(v, h.entry + 15, Jump(IfFalse, Direct(h.unknown)))
  }

  ghost predicate TableCode(v: Cells, h: Handler) {
    && Holds(v, h.entry + 16, Copy(Literal(PrintInt(h.table)), Direct(REG_A)))
    && Holds(v, h.entry + 17, Cp(h.number, REG_B))
    && Holds(v, h.entry + 18, Cp(h.add, REG_OP)) && Holds(v, h.entry + 19, Exec)
    && Holds(v, h.entry + 20, Copy(Indirect(REG_RES), Direct(h.chosen)))
    && Holds(v, h.entry + 21, Jump(Always, Indirect(h.chosen)))
  }

  predicate IsSaved(h: Handler, i: int) {
    i in {h.arg1, h.arg2, h.arg3, h.arg4, h.number}
  }

  /** The handler is in place for `count` calls; `handlers` are the addresses in the table. */
  ghost predicate Installed(v: Cells, h: Handler, handlers: seq<int>)
    ensures Installed(v, h, handlers) ==> |v| > MIN_RAM_SIZE
  {
    && |v| > MIN_RAM_SIZE && KERNEL_START <= h.entry && h.entry + 21 < INT_MAX && InInt(h.unknown)
    && InInt(h.unknown - 1)
    && EntryCode(v, h) && NumberCode(v, h) && RangeCode(v, h) && TableCode(v, h)
    && DataOk(v, h, handlers)
  }

  predicate Behind(v: Cells, h: Handler, c: int) {
    KERNEL_START <= h.entry && h.entry + 21 < c < |v|
  }

  /** Constants and variables lie behind the code; the variables are distinct. */
  ghost predicate DataOk(v: Cells, h: Handler, handlers: seq<int>)
    requires |v| > MIN_RAM_SIZE
  {
    && Behind(v, h, h.isNum) && Behind(v, h, h.zero) && Behind(v, h, h.less) && Behind(v, h, h.add)
    && Behind(v, h, h.arg1) && Behind(v, h, h.arg2) && Behind(v, h, h.arg3) && Behind(v, h, h.arg4)
    && Behind(v, h, h.number) && Behind(v, h, h.count) && Behind(v, h, h.table) && Behind(v, h, h.chosen)
    && InInt(|v|) && InInt(|handlers|) && h.table + |handlers| <= |v|
    && v[h.isNum] == "7" && v[h.zero] == PrintInt(0) && v[h.less] == "10" && v[h.add] == "0"
    && v[h.count] == PrintInt(|handlers|)
    && (forall n :: 0 <= n < |handlers| ==>
          v[h.table + n] == PrintInt(handlers[n]) && InInt(handlers[n]) && InInt(handlers[n] - 1))
    && (forall i :: IsSaved(h, i) ==>
          i !in {h.isNum, h.zero, h.less, h.add, h.count} && !(h.table <= i < h.table + |handlers|))
    && h.number !in {h.arg1, h.arg2, h.arg3, h.arg4} && h.arg4 !in {h.arg1, h.arg2, h.arg3}
    && h.arg3 !in {h.arg1, h.arg2} && h.arg1 != h.arg2
  }

  /** Cells that the handler leaves alone until the table lookup. */
  predicate Other(h: Handler, i: int) {
    !Scratch(i) && !IsSaved(h, i)
  }

  lemma StaysInstalled(v: Cells, w: Cells, h: Handler, handlers: seq<int>)
    requires Installed(v, h, handlers) && |w| == |v| && forall i :: 0 <= i < |v| && Other(h, i) ==> w[i] == v[i]
    ensures Installed(w, h, handlers)
  {
    hide Decode, PrintInt;
    assert forall i :: h.entry <= i <= h.entry + 21 ==> Other(h, i);
  }

  /** The first three instructions. */
  lemma KeepsThree(m: Machine, ins: seq<Inputs>, k: nat, v: Cells, disks: Disks, h: Handler, handlers: seq<int>)
      returns (w: Cells)
    requires Valid(m) && k + 3 <= |ins| && Poised(State(m, ins, k), h.entry, v, disks) && Installed(v, h, handlers)
    ensures Poised(State(m, ins, k + 3), h.entry + 3, w, disks)
    ensures 0 <= h.arg1 < |v| && 0 <= h.arg2 < |v| && 0 <= h.arg3 < |v|
    ensures w == v[h.arg1 := v[REG_A]][h.arg2 := v[REG_B]][h.arg3 := v[REG_C]]
  {
    hide Decode, Poised, State, PrintInt, NumberCode, RangeCode, TableCode, Holds, DataOk;
    ArgumentsPlain(v, h, handlers);
    CopyAt(m, ins, k, h.entry, v, disks, REG_A, h.arg1);
    var v1 := v[h.arg1 := v[REG_A]];
    HeldThrough(v, v1, h.entry + 1, Cp(REG_B, h.arg2));
    CopyAt(m, ins, k + 1, h.entry + 1, v1, disks, REG_B, h.arg2);
    var v2 := v1[h.arg2 := v1[REG_B]];
    HeldThrough(v, v2, h.entry + 2, Cp(REG_C, h.arg3));
    CopyAt(m, ins, k + 2, h.entry + 2, v2, disks, REG_C, h.arg3);
    w := v2[h.arg3 := v2[REG_C]];
  }

  /** The first five instructions keep the arguments. */
  lemma KeepsArguments(m: Machine, ins: seq<Inputs>, k: nat, v: Cells, disks: Disks, h: Handler, handlers: seq<int>)
      returns (w: Cells)
    requires Valid(m) && k + 5 <= |ins| && Poised(State(m, ins, k), h.entry, v, disks) && Installed(v, h, handlers)
    ensures Poised(State(m, ins, k + 5), h.entry + 5, w, disks) && Installed(w, h, handlers) && |w| == |v|
    ensures 0 <= h.arg1 < |w| && 0 <= h.arg2 < |w| && 0 <= h.arg3 < |w| && 0 <= h.arg4 < |w| && 0 <= h.number < |w|
    ensures w[h.arg1] == v[REG_A] && w[h.arg2] == v[REG_B] && w[h.arg3] == v[REG_C] && w[h.arg4] == v[REG_D]
            && w[h.number] == v[REG_E]
    ensures forall i :: 0 <= i < |v| && !IsSaved(h, i) ==> w[i] == v[i]
  {
    hide Decode, Poised, State, PrintInt, NumberCode, RangeCode, TableCode, Holds, DataOk;
    ArgumentsPlain(v, h, handlers);
    var v3 := KeepsThree(m, ins, k, v, disks, h, handlers);
    HeldThrough(v, v3, h.entry + 3, Cp(REG_D, h.arg4));
    CopyAt(m, ins, k + 3, h.entry + 3, v3, disks, REG_D, h.arg4);
    var v4 := v3[h.arg4 := v3[REG_D]];
    HeldThrough(v, v4, h.entry + 4, Cp(REG_E, h.number));
    CopyAt(m, ins, k + 4, h.entry + 4, v4, disks, REG_E, h.number);
    w := v4[h.number := v4[REG_E]];
    StaysInstalled(v, w, h, handlers);
  }

  lemma ArgumentsPlain(v: Cells, h: Handler, handlers: seq<int>)
    requires Installed(v, h, handlers)
    ensures Behind(v, h, h.arg1) && Behind(v, h, h.arg2) && Behind(v, h, h.arg3) && Behind(v, h, h.arg4)
            && Behind(v, h, h.number)
    ensures h.number !in {h.arg1, h.arg2, h.arg3, h.arg4} && h.arg4 !in {h.arg1, h.arg2, h.arg3}
    ensures h.arg3 !in {h.arg1, h.arg2} && h.arg1 != h.arg2
  {
    hide Decode, EntryCode, NumberCode, RangeCode, TableCode, PrintInt;
  }

  /** The call number is a number. */
  lemma ChecksNumber(m: Machine, ins: seq<Inputs>, k: nat, v: Cells, disks: Disks, h: Handler, handlers: seq<int>,
                     e: int)
      returns (w: Cells)
    requires Valid(m) && k + 4 <= |ins| && Poised(State(m, ins, k), h.entry + 5, v, disks) && Installed(v, h, handlers)
    requires EnergyIn(v) == Some(e) && InInt(e + 1)
    ensures 0 <= h.number < |v| && |w| == |v| && Kept(v, w) && Installed(w, h, handlers) && EnergyIn(w) == Some(e + 1)
    ensures w[REG_A] == v[h.number]
    ensures Poised(State(m, ins, k + 4), if IsNum(v[h.number]) then h.entry + 9 else h.unknown, w, disks)
  {
    hide Decode, Poised, State, PrintInt, EntryCode, RangeCode, TableCode, IsNum, Stoi, EnergyIn;
    assert OpIsText("7", OP_IS_NUM) by { CodeTexts(); }
    CopyAt(m, ins, k, h.entry + 5, v, disks, h.number, REG_A);
    var v1 := v[REG_A := v[h.number]];
    assert EnergyIn(v1) == Some(e) by { SameEnergy(v, v1); }
    w := ComputeAt(m, ins, k + 1, h.entry + 6, v1, disks, h.isNum, OP_IS_NUM, e, FlagOf(IsNum(v[h.number])));
    JumpAt(m, ins, k + 3, h.entry + 8, w, disks, IfFalse, h.unknown);
    StaysInstalled(v, w, h, handlers);
  }

  // ---- What the checks find out about a text ----

  /** The order test of the CPU; `None` where it throws. With a decimal point in the text the
      floating-point unit decides, from the step's inputs. */
  function IsBelow(t: string, n: int, input: Inputs): Option<bool> {
    if IsFloat(t) then input.floatTest
    else match Stoi(t) case None => None case Some(x) => Some(x < n)
  }

  /** The sum of the table address and the text. */
  function TableSum(table: int, t: string, input: Inputs): Option<string> {
    if IsFloat(t) then input.floatText
    else match Stoi(t) case None => None case Some(x) => Some(PrintInt(table + x))
  }

  lemma BelowIs(t: string, n: int, input: Inputs)
    requires InInt(n)
    ensures forall c, d :: Compute(OP_CMP_LT, t, PrintInt(n), c, d, input) ==
                             match IsBelow(t, n, input) case None => AluSignal(Thrown) case Some(b) => FlagOf(b)
  {
    hide PrintInt, Stoi, IsFloat;
    StoiPrint(n);
    PrintedIsInteger(n);
  }

  lemma SumIs(table: int, t: string, input: Inputs)
    requires InInt(table)
    ensures forall c, d :: Compute(OP_ADD, PrintInt(table), t, c, d, input) ==
                             match TableSum(table, t, input) case None => AluSignal(Thrown) case Some(r) => ResultOf(r)
  {
    hide PrintInt, Stoi, IsFloat;
    StoiPrint(table);
    PrintedIsInteger(table);
  }

  lemma PrintedIsInteger(n: int)
    ensures !IsFloat(PrintInt(n))
  {
    PrintChars(n);
  }

  /** The sign check. */
  lemma ChecksSign(m: Machine, ins: seq<Inputs>, k: nat, v: Cells, disks: Disks, h: Handler, handlers: seq<int>,
                   t: string, e: int)
      returns (w: Cells)
    requires Valid(m) && k + 4 <= |ins| && Poised(State(m, ins, k), h.entry + 9, v, disks) && Installed(v, h, handlers)
    requires EnergyIn(v) == Some(e) && InInt(e + 1) && v[REG_A] == t && IsBelow(t, 0, ins[k + 2]).Some?
    ensures |w| == |v| && Kept(v, w) && Installed(w, h, handlers) && EnergyIn(w) == Some(e + 1)
    ensures w[REG_A] == t && OpIsText(w[REG_OP], OP_CMP_LT)
    ensures Poised(State(m, ins, k + 4), if IsBelow(t, 0, ins[k + 2]).value then h.unknown else h.entry + 13, w, disks)
  {
    hide Decode, Poised, State, PrintInt, EntryCode, NumberCode, TableCode, Stoi, EnergyIn, Compute, IsBelow;
    assert OpIsText("10", OP_CMP_LT) by { CodeTexts(); }
    CopyAt(m, ins, k, h.entry + 9, v, disks, h.zero, REG_B);
    var v1 := v[REG_B := v[h.zero]];
    assert EnergyIn(v1) == Some(e) by { SameEnergy(v, v1); }
    BelowIs(t, 0, ins[k + 2]);
    w := ComputeAt(m, ins, k + 1, h.entry + 10, v1, disks, h.less, OP_CMP_LT, e,
        FlagOf(IsBelow(t, 0, ins[k + 2]).value));
    JumpAt(m, ins, k + 3, h.entry + 12, w, disks, IfTrue, h.unknown);
    StaysInstalled(v, w, h, handlers);
  }

  /** The sign check of a text that throws stops the machine. */
  lemma SignThrows(m: Machine, ins: seq<Inputs>, k: nat, v: Cells, disks: Disks, h: Handler, handlers: seq<int>,
                   t: string, e: int)
    requires Valid(m) && k + 3 <= |ins| && Poised(State(m, ins, k), h.entry + 9, v, disks) && Installed(v, h, handlers)
    requires EnergyIn(v) == Some(e) && v[REG_A] == t && IsBelow(t, 0, ins[k + 2]).None?
    ensures State(m, ins, k + 3).status.Crashed?
  {
    hide Decode, Poised, State, PrintInt, EntryCode, NumberCode, TableCode, Stoi, EnergyIn, Compute, IsBelow, Step;
    assert OpIsText("10", OP_CMP_LT) by { CodeTexts(); }
    CopyAt(m, ins, k, h.entry + 9, v, disks, h.zero, REG_B);
    var v1 := v[REG_B := v[h.zero]];
    CopyAt(m, ins, k + 1, h.entry + 10, v1, disks, h.less, REG_OP);
    var v2 := v1[REG_OP := v1[h.less]];
    assert EnergyIn(v2) == Some(e) by { SameEnergy(v, v2); }
    BelowIs(t, 0, ins[k + 2]);
    RunStates(m, ins);
    ThrowStep(State(m, ins, k + 2), ins[k + 2], h.entry + 11, v2, disks, OP_CMP_LT, e);
  }

  /** The count check; the operation code is still in place. */
  lemma ChecksCount(m: Machine, ins: seq<Inputs>, k: nat, v: Cells, disks: Disks, h: Handler, handlers: seq<int>,
                    t: string, e: int)
      returns (w: Cells)
    requires Valid(m) && k + 3 <= |ins| && Poised(State(m, ins, k), h.entry + 13, v, disks) && Installed(v, h, handlers)
    requires EnergyIn(v) == Some(e) && InInt(e + 1) && v[REG_A] == t && OpIsText(v[REG_OP], OP_CMP_LT)
    requires IsBelow(t, |handlers|, ins[k + 1]).Some?
    ensures |w| == |v| && Kept(v, w) && Installed(w, h, handlers) && EnergyIn(w) == Some(e + 1)
    ensures Poised(State(m, ins, k + 3), if IsBelow(t, |handlers|, ins[k + 1]).value then h.entry + 16
            else h.unknown, w, disks)
  {
    hide Decode, Poised, State, PrintInt, EntryCode, NumberCode, TableCode, Stoi, EnergyIn, Compute, Step, IsBelow;
    CopyAt(m, ins, k, h.entry + 13, v, disks, h.count, REG_B);
    var v1 := v[REG_B := v[h.count]];
    assert EnergyIn(v1) == Some(e) by { SameEnergy(v, v1); }
    CountFits(v, h, handlers);
    BelowIs(t, |handlers|, ins[k + 1]);
    var below := IsBelow(t, |handlers|, ins[k + 1]).value;
    RunStates(m, ins);
    ComputeStep(State(m, ins, k + 1), ins[k + 1], h.entry + 14, v1, disks, OP_CMP_LT, e, FlagOf(below));
    EnergyAfter(v1, e, OP_CMP_LT);
    w := Charged(v1, e, OP_CMP_LT)[REG_BOOL := if below then "1" else "0"];
    assert EnergyIn(w) == Some(e + 1) by { SameEnergy(Charged(v1, e, OP_CMP_LT), w); }
    JumpAt(m, ins, k + 2, h.entry + 15, w, disks, IfFalse, h.unknown);
    StaysInstalled(v, w, h, handlers);
  }

  lemma CountThrows(m: Machine, ins: seq<Inputs>, k: nat, v: Cells, disks: Disks, h: Handler, handlers: seq<int>,
                    t: string, e: int)
    requires Valid(m) && k + 2 <= |ins| && Poised(State(m, ins, k), h.entry + 13, v, disks) && Installed(v, h, handlers)
    requires EnergyIn(v) == Some(e) && v[REG_A] == t && OpIsText(v[REG_OP], OP_CMP_LT)
             && IsBelow(t, |handlers|, ins[k + 1]).None?
    ensures State(m, ins, k + 2).status.Crashed?
  {
    hide Decode, Poised, State, PrintInt, EntryCode, NumberCode, TableCode, Stoi, EnergyIn, Compute, IsBelow, Step;
    CopyAt(m, ins, k, h.entry + 13, v, disks, h.count, REG_B);
    var v1 := v[REG_B := v[h.count]];
    assert EnergyIn(v1) == Some(e) by { SameEnergy(v, v1); }
    CountFits(v, h, handlers);
    BelowIs(t, |handlers|, ins[k + 1]);
    RunStates(m, ins);
    ThrowStep(State(m, ins, k + 1), ins[k + 1], h.entry + 14, v1, disks, OP_CMP_LT, e);
  }

  /** The table address and the call number are at hand. */
  lemma Loads(m: Machine, ins: seq<Inputs>, k: nat, v: Cells, disks: Disks, h: Handler, handlers: seq<int>)
      returns (w: Cells)
    requires Valid(m) && k + 2 <= |ins| && Poised(State(m, ins, k), h.entry + 16, v, disks) && Installed(v, h, handlers)
    ensures 0 <= h.number < |v| && w == v[REG_A := PrintInt(h.table)][REG_B := v[h.number]]
    ensures Poised(State(m, ins, k + 2), h.entry + 18, w, disks)
  {
    hide Decode, Poised, State, PrintInt, EntryCode, NumberCode, RangeCode, Stoi, Compute, Step;
    RunStates(m, ins);
    WriteStep(State(m, ins, k), ins[k], h.entry + 16, v, disks, PrintInt(h.table), REG_A);
    var v1 := v[REG_A := PrintInt(h.table)];
    CopyAt(m, ins, k + 1, h.entry + 17, v1, disks, h.number, REG_B);
    w := v1[REG_B := v1[h.number]];
  }

  const DISPATCH_STEPS := 22

  /** The sum throws. */
  lemma SumThrows(m: Machine, ins: seq<Inputs>, k: nat, v: Cells, disks: Disks, h: Handler, handlers: seq<int>, e: int)
    requires Valid(m) && k + 4 <= |ins| && Poised(State(m, ins, k), h.entry + 16, v, disks) && Installed(v, h, handlers)
    requires EnergyIn(v) == Some(e) && 0 <= h.number < |v| && TableSum(h.table, v[h.number], ins[k + 3]).None?
    ensures State(m, ins, k + 4).status.Crashed?
  {
    hide Decode, Poised, State, PrintInt, EntryCode, NumberCode, RangeCode, Stoi, EnergyIn, Compute, Step, TableSum;
    assert OpIsText("0", OP_ADD) by { CodeTexts(); }
    var v2 := Loads(m, ins, k, v, disks, h, handlers);
    CopyAt(m, ins, k + 2, h.entry + 18, v2, disks, h.add, REG_OP);
    var v3 := v2[REG_OP := v2[h.add]];
    assert EnergyIn(v3) == Some(e) by { SameEnergy(v, v3); }
    SumIs(h.table, v[h.number], ins[k + 3]);
    RunStates(m, ins);
    ThrowStep(State(m, ins, k + 3), ins[k + 3], h.entry + 19, v3, disks, OP_ADD, e);
  }

  /** Up to the lookup: the sum is in RES. */
  lemma Sums(m: Machine, ins: seq<Inputs>, k: nat, v: Cells, disks: Disks, h: Handler, handlers: seq<int>, e: int,
             sum: string)
      returns (w: Cells)
    requires Valid(m) && k + 4 <= |ins| && Poised(State(m, ins, k), h.entry + 16, v, disks) && Installed(v, h, handlers)
    requires EnergyIn(v) == Some(e) && InInt(e + 1)
    requires 0 <= h.number < |v| && TableSum(h.table, v[h.number], ins[k + 3]) == Some(sum)
    ensures Poised(State(m, ins, k + 4), h.entry + 20, w, disks) && Kept(v, w) && |w| > MIN_RAM_SIZE
            && w[REG_RES] == sum
    ensures Installed(w, h, handlers)
  {
    hide Decode, Poised, State, PrintInt, EntryCode, NumberCode, RangeCode, Stoi, EnergyIn, Compute, Step, TableSum;
    assert OpIsText("0", OP_ADD) by { CodeTexts(); }
    var v2 := Loads(m, ins, k, v, disks, h, handlers);
    assert EnergyIn(v2) == Some(e) by { SameEnergy(v, v2); }
    SumIs(h.table, v[h.number], ins[k + 3]);
    w := ComputeAt(m, ins, k + 2, h.entry + 18, v2, disks, h.add, OP_ADD, e, ResultOf(sum));
    StaysInstalled(v, w, h, handlers);
  }

  /** The lookup of a sum outside the table. */
  lemma LooksOutside(m: Machine, ins: seq<Inputs>, w: Cells, disks: Disks, h: Handler, handlers: seq<int>, sum: string)
    requires Valid(m) && |ins| >= DISPATCH_STEPS && Poised(State(m, ins, 20), h.entry + 20, w, disks)
             && Installed(w, h, handlers)
    requires w[REG_RES] == sum
    ensures LooksAt(m, ins, w, disks, h, sum)
  {
    hide Decode, Poised, State, PrintInt, EntryCode, NumberCode, RangeCode, Stoi, Step;
    RunStates(m, ins);
    CopyFromPointerFails(State(m, ins, 20), ins[20], h.entry + 20, w, disks, REG_RES, h.chosen);
    if Stoi(sum).Some? && 1 <= Stoi(sum).value < |w| && Plain(w, Stoi(sum).value) {
      var a := Stoi(sum).value;
      CopyFromPointerStep(State(m, ins, 20), ins[20], h.entry + 20, w, disks, REG_RES, a, h.chosen);
      var u := w[h.chosen := w[a]];
      if Stoi(w[a]).None? {
        JumpByPointerFails(State(m, ins, 21), ins[21], h.entry + 21, u, disks, h.chosen);
      } else if InInt(Stoi(w[a]).value - 1) {
        StoiInInt(w[a]);
        JumpByPointerStep(State(m, ins, 21), ins[21], h.entry + 21, u, disks, h.chosen, Stoi(w[a]).value);
      }
    }
  }

  /** The table lookup: a sum that names the cell of handler n leads to handler n. */
  lemma LooksUp(m: Machine, ins: seq<Inputs>, k: nat, v: Cells, disks: Disks, h: Handler, handlers: seq<int>, n: nat,
                e: int, sum: string)
      returns (w: Cells)
    requires Valid(m) && k + 6 <= |ins| && Poised(State(m, ins, k), h.entry + 16, v, disks) && Installed(v, h, handlers)
    requires EnergyIn(v) == Some(e) && InInt(e + 1) && n < |handlers|
    requires 0 <= h.number < |v| && TableSum(h.table, v[h.number], ins[k + 3]) == Some(sum)
             && Stoi(sum) == Some(h.table + n)
    ensures Poised(State(m, ins, k + 6), handlers[n], w, disks) && |w| == |v|
    ensures forall i :: 0 <= i < |v| && !Scratch(i) && i != h.chosen ==> w[i] == v[i]
  {
    hide Decode, Poised, State, PrintInt, EntryCode, NumberCode, RangeCode, Stoi, EnergyIn, Compute, Step, TableSum;
    var v3 := Sums(m, ins, k, v, disks, h, handlers, e, sum);
    RunStates(m, ins);
    CopyFromPointerStep(State(m, ins, k + 4), ins[k + 4], h.entry + 20, v3, disks, REG_RES, h.table + n, h.chosen);
    w := v3[h.chosen := v3[h.table + n]];
    StoiPrint(handlers[n]);
    JumpByPointerStep(State(m, ins, k + 5), ins[k + 5], h.entry + 21, w, disks, h.chosen, handlers[n]);
  }

  /** Up to the sign check: the arguments are kept and the call number passes OP_IS_NUM. */
  lemma NumberEnters(m: Machine, ins: seq<Inputs>, v: Cells, disks: Disks, h: Handler, handlers: seq<int>, e: int)
      returns (w: Cells)
    requires 9 <= |ins| && Poised(m, h.entry, v, disks) && Installed(v, h, handlers)
    requires EnergyIn(v) == Some(e) && 0 <= e && InInt(e + 4)
    ensures Poised(State(m, ins, 9), if IsNum(v[REG_E]) then h.entry + 9 else h.unknown, w, disks)
    ensures |w| == |v| && Installed(w, h, handlers) && EnergyIn(w) == Some(e + 1) && w[REG_A] == v[REG_E]
            && KeptArguments(v, w, h)
  {
    hide Decode, Poised, State, PrintInt, Stoi, EnergyIn, IsNum, EntryCode, NumberCode, RangeCode, TableCode;
    RunStates(m, ins);
    CountFits(v, h, handlers);
    var v1 := KeepsArguments(m, ins, 0, v, disks, h, handlers);
    assert EnergyIn(v1) == Some(e) by { SameEnergy(v, v1); }
    w := ChecksNumber(m, ins, 5, v1, disks, h, handlers, e);
  }

  /** The argument variables hold the caller's REG_A to REG_D, and the number variable its REG_E. */
  ghost predicate KeptArguments(v: Cells, w: Cells, h: Handler) {
    && |v| > MIN_RAM_SIZE && Behind(w, h, h.arg1) && Behind(w, h, h.arg2) && Behind(w, h, h.arg3)
    && Behind(w, h, h.arg4)
    && Behind(w, h, h.number) && w[h.number] == v[REG_E]
    && w[h.arg1] == v[REG_A] && w[h.arg2] == v[REG_B] && w[h.arg3] == v[REG_C] && w[h.arg4] == v[REG_D]
  }

  /** What becomes of a call whose number register holds the text `t`, given the inputs of the
      handler's steps: the number of steps, and where they end. */
  datatype Fate = Unknown(steps: nat) | Stops(steps: nat) | Reaches(n: nat) | Looks(sum: string)

  function FateOf(t: string, h: Handler, count: nat, ins: seq<Inputs>): Fate
    requires |ins| == DISPATCH_STEPS
  {
    if !IsNum(t) then Unknown(9)
    else
      match IsBelow(t, 0, ins[11])
      case None => Stops(12)
      case Some(true) => Unknown(13)
      case Some(false) =>
        match IsBelow(t, count, ins[14])
        case None => Stops(15)
        case Some(false) => Unknown(16)
        case Some(true) =>
          match TableSum(h.table, t, ins[19])
          case None => Stops(20)
          case Some(sum) =>
            if Stoi(sum).Some? && h.table <= Stoi(sum).value < h.table + count then Reaches(Stoi(sum).value - h.table)
            else Looks(sum)
  }

  /** The run ends as the fate says, with cells `w`. */
  ghost predicate Meets(m: Machine, ins: seq<Inputs>, v: Cells, w: Cells, disks: Disks, h: Handler,
                        handlers: seq<int>, fate: Fate)
    requires Valid(m) && |v| > MIN_RAM_SIZE
  {
    match fate
    case Unknown(steps) => steps <= |ins| && Poised(State(m, ins, steps), h.unknown, w, disks) && KeptArguments(v, w, h)
    case Stops(steps) => steps <= |ins| && State(m, ins, steps).status.Crashed?
    case Reaches(n) => n < |handlers| && Poised(Run(m, ins), handlers[n], w, disks) && KeptArguments(v, w, h)
    case Looks(sum) =>
      |ins| >= DISPATCH_STEPS && Poised(State(m, ins, 20), h.entry + 20, w, disks) && KeptArguments(v, w, h)
        && LooksAt(m, ins, w, disks, h, sum)
  }

  /** The lookup of a sum outside the table, in the cells `w` that it finds: it stops at a text that
      is no number and at an address outside RAM, and otherwise jumps to the number in that cell.
      Nothing is said of the cells of the program counter and the last key. */
  ghost predicate LooksAt(m: Machine, ins: seq<Inputs>, w: Cells, disks: Disks, h: Handler, sum: string)
    requires Valid(m) && |ins| >= DISPATCH_STEPS
  {
    match Stoi(sum)
    case None => State(m, ins, 21).status.Crashed?
    case Some(a) =>
      if !(1 <= a < |w|) then State(m, ins, 21).status.Halted?
      else if !Plain(w, a) then true
      else
        match Stoi(w[a])
        case None => State(m, ins, 22).status.Crashed?
        case Some(target) =>
          InInt(target - 1) ==> 0 <= h.chosen < |w| && Poised(State(m, ins, 22), target, w[h.chosen := w[a]], disks)
  }

  /** Behind the checks. */
  lemma Finishes(m: Machine, ins: seq<Inputs>, v: Cells, disks: Disks, h: Handler, handlers: seq<int>, t: string,
                 e: int)
      returns (w: Cells)
    requires Valid(m) && |ins| == DISPATCH_STEPS && Poised(State(m, ins, 16), h.entry + 16, v, disks)
             && Installed(v, h, handlers)
    requires EnergyIn(v) == Some(e) && InInt(e + 1) && 0 <= h.number < |v| && v[h.number] == t
    ensures |w| == |v| && forall i :: 0 <= i < |v| && !Scratch(i) && i != h.chosen ==> w[i] == v[i]
    ensures match TableSum(h.table, t, ins[19])
            case None => State(m, ins, 20).status.Crashed?
            case Some(sum) =>
              if Stoi(sum).Some? && h.table <= Stoi(sum).value < h.table + |handlers|
              then Poised(Run(m, ins), handlers[Stoi(sum).value - h.table], w, disks)
              else Poised(State(m, ins, 20), h.entry + 20, w, disks) && Kept(v, w) && LooksAt(m, ins, w, disks, h, sum)
  {
    hide Decode, Poised, State, PrintInt, Stoi, EnergyIn, EntryCode, NumberCode, RangeCode, TableCode, TableSum,
      DataOk, Step, LooksAt;
    RunStates(m, ins);
    match TableSum(h.table, t, ins[19])
    case None =>
      SumThrows(m, ins, 16, v, disks, h, handlers, e);
      w := v;
    case Some(sum) =>
      if Stoi(sum).Some? && h.table <= Stoi(sum).value < h.table + |handlers| {
        w := LooksUp(m, ins, 16, v, disks, h, handlers, Stoi(sum).value - h.table, e, sum);
      } else {
        w := Sums(m, ins, 16, v, disks, h, handlers, e, sum);
        LooksOutside(m, ins, w, disks, h, handlers, sum);
      }
  }

  /** Dispatch, for every text in REG_E: the handler whose table cell the sum names, with the
      caller's REG_A to REG_D in the argument variables; the unknown-call exit for what is no
      number or out of range; or the end of the machine, for a number that `std::stoi` refuses; and, for a number
      with a decimal point, wherever its sum leads. */
  lemma DispatchOutcome(m: Machine, ins: seq<Inputs>, v: Cells, disks: Disks, h: Handler, handlers: seq<int>, e: int)
      returns (w: Cells)
    requires |ins| == DISPATCH_STEPS && Poised(m, h.entry, v, disks) && Installed(v, h, handlers)
    requires EnergyIn(v) == Some(e) && 0 <= e && InInt(e + 4) && h.chosen !in {h.arg1, h.arg2, h.arg3, h.arg4, h.number}
    ensures |v| > MIN_RAM_SIZE
    ensures Meets(m, ins, v, w, disks, h, handlers, FateOf(v[REG_E], h, |handlers|, ins))
  {
    hide Decode, Poised, State, PrintInt, Stoi, EnergyIn, IsNum, EntryCode, NumberCode, RangeCode, TableCode, IsBelow,
      TableSum, DataOk;
    RunStates(m, ins);
    var t := v[REG_E];
    var v1 := NumberEnters(m, ins, v, disks, h, handlers, e);
    w := v1;
    if IsNum(t) {
      if IsBelow(t, 0, ins[11]).None? {
        SignThrows(m, ins, 9, v1, disks, h, handlers, t, e + 1);
      } else {
        var v2 := ChecksSign(m, ins, 9, v1, disks, h, handlers, t, e + 1);
        w := v2;
        ArgumentsStay(v, v1, v2, h);
        if !IsBelow(t, 0, ins[11]).value {
          if IsBelow(t, |handlers|, ins[14]).None? {
            CountThrows(m, ins, 13, v2, disks, h, handlers, t, e + 2);
          } else {
            var v3 := ChecksCount(m, ins, 13, v2, disks, h, handlers, t, e + 2);
            w := v3;
            ArgumentsStay(v, v2, v3, h);
            if IsBelow(t, |handlers|, ins[14]).value {
              w := Finishes(m, ins, v3, disks, h, handlers, t, e + 3);
            }
          }
        }
      }
    }
  }

  lemma ArgumentsStay(v: Cells, w: Cells, u: Cells, h: Handler)
    requires KeptArguments(v, w, h) && Kept(w, u)
    ensures KeptArguments(v, u, h)
  {
  }

  /** For integers the floating-point unit has no say: a text with value n reaches handler n
      exactly when 0 <= n < count, whatever its spelling, and is unknown otherwise; a number too
      large for an integer stops the machine. */
  lemma IntegerFate(t: string, h: Handler, count: nat, ins: seq<Inputs>)
    requires |ins| == DISPATCH_STEPS && IsNum(t) && !IsFloat(t) && InInt(h.table) && InInt(h.table + count)
    ensures match Stoi(t)
            case None => FateOf(t, h, count, ins) == Stops(12)
            case Some(n) => FateOf(t, h, count, ins) == if n < 0 then Unknown(13) else if n >= count then Unknown(16)
              else Reaches(n)
  {
    hide IsNum, Stoi, IsFloat, PrintInt;
    if Stoi(t).Some? && 0 <= Stoi(t).value < count {
      StoiPrint(h.table + Stoi(t).value);
    }
  }

  lemma CountFits(v: Cells, h: Handler, handlers: seq<int>)
    requires Installed(v, h, handlers)
    ensures InInt(|handlers|)
    ensures Behind(v, h, h.arg1) && Behind(v, h, h.arg2) && Behind(v, h, h.arg3) && Behind(v, h, h.arg4)
            && Behind(v, h, h.number)
  {
  }

  /** The table is where the handler looks for it: variables declared one after the other get
      consecutive addresses. */
  lemma TableIsContiguous(lines: seq<A.Line>, first: int, syms: A.Symbols, k: nat, n: nat)
    requires A.Pass1(lines, first, syms).errors == 0 && L.AllLexed(lines, syms) && E.SymbolsOk(syms)
    requires k + n < |L.VarsOf(lines)|
    ensures var t, names := A.Layout(A.Pass1(lines, first, syms)), L.VarsOf(lines);
            && names[k] in t.variables && names[k + n] in t.variables
            && t.variables[names[k + n]] == t.variables[names[k]] + n
  {
    hide A.Pass1, A.Layout, L.VarsOf;
    L.LayoutCorrect(lines, first, syms);
  }
}
