/** The kernel's call stack, as machine code: calls push a return address below FREE_MEMORY_END,
    returns pop it, and properly nested calls come back to their call sites. */
module Stack {
  import opened Wrappers
  import opened Text
  import opened Hardware
  import opened Runs
  import opened Stepping
  import opened MachineCode

  /** Where the linker put things: the push and pop routines and their constants among the
      kernel's code, and their variables behind it. */
  datatype Layout = Layout(push: int, pop: int, decr: int, incr: int, codeEnd: int,
                           ret: int, ptr: int, here: int, keepA: int, keepRes: int, keepError: int, target: int,
                               varsEnd: int)

  predicate IsCode(l: Layout, i: int) {
    KERNEL_START <= i < l.codeEnd
  }

  predicate IsVar(l: Layout, i: int) {
    l.codeEnd <= i < l.varsEnd
  }

  predicate Distinct(l: Layout) {
    && l.ret !in {l.ptr, l.here, l.keepA, l.keepRes, l.keepError, l.target}
    && l.ptr !in {l.here, l.keepA, l.keepRes, l.keepError, l.target}
    && l.here !in {l.keepA, l.keepRes, l.keepError, l.target}
    && l.keepA !in {l.keepRes, l.keepError, l.target} && l.keepRes !in {l.keepError, l.target}
    && l.keepError != l.target
  }

  predicate LayoutOk(l: Layout) {
    && KERNEL_START <= l.push && l.push + 21 <= l.codeEnd && KERNEL_START <= l.pop && l.pop + 16 <= l.codeEnd
    && IsCode(l, l.decr) && IsCode(l, l.incr) && InInt(l.varsEnd)
    && IsVar(l, l.ret) && IsVar(l, l.ptr) && IsVar(l, l.here) && IsVar(l, l.keepA) && IsVar(l, l.keepRes)
    && IsVar(l, l.keepError) && IsVar(l, l.target) && Distinct(l)
  }

  ghost predicate PushCode(v: Cells, l: Layout) {
    && LowerCode(v, l) && Holds(v, l.push + 5, Cp(FREE_MEMORY_END, REG_A)) && Holds(v, l.push + 6, Exec)
    && Holds(v, l.push + 7, Cp(REG_RES, FREE_MEMORY_END)) && StoreCode(v, l) && LeaveCode(v, l)
  }

  /** The first five instructions of the push routine: the stack pointer goes down. */
  ghost predicate LowerCode(v: Cells, l: Layout) {
    && Holds(v, l.push, Cp(REG_A, l.keepA)) && Holds(v, l.push + 1, Cp(l.ptr, REG_A))
    && Holds(v, l.push + 2, Cp(l.decr, REG_OP))
    && Holds(v, l.push + 3, Exec) && Holds(v, l.push + 4, Cp(REG_RES, l.ptr))
  }

  /** Storing the return address, past the jump behind it. */
  ghost predicate StoreCode(v: Cells, l: Layout) {
    && Holds(v, l.push + 8, Cp(l.ret, REG_A)) && Holds(v, l.push + 9, Cp(l.incr, REG_OP)) && Holds(v, l.push + 10, Exec)
    && Holds(v, l.push + 11, Cp(REG_RES, REG_A)) && Holds(v, l.push + 12, Exec)
    && Holds(v, l.push + 13, Copy(Direct(REG_RES), Indirect(l.ptr)))
  }

  /** Returning to the routine that asked for the push. */
  ghost predicate LeaveCode(v: Cells, l: Layout) {
    && Holds(v, l.push + 14, Cp(l.here, REG_A)) && Holds(v, l.push + 15, Exec)
    && Holds(v, l.push + 16, Cp(REG_RES, REG_A))
    && Holds(v, l.push + 17, Exec) && Holds(v, l.push + 18, Cp(REG_RES, l.here))
    && Holds(v, l.push + 19, Cp(l.keepA, REG_A)) && Holds(v, l.push + 20, Jump(Always, Indirect(l.here)))
  }

  ghost predicate PopCode(v: Cells, l: Layout) {
    && TakeCode(v, l) && RaiseCode(v, l) && ResumeCode(v, l)
  }

  /** The first four instructions of the pop routine: keep registers, read the top. */
  ghost predicate TakeCode(v: Cells, l: Layout) {
    && Holds(v, l.pop, Cp(REG_A, l.keepA)) && Holds(v, l.pop + 1, Cp(REG_RES, l.keepRes))
    && Holds(v, l.pop + 2, Cp(REG_ERROR, l.keepError)) && Holds(v, l.pop + 3, Copy(Indirect(l.ptr), Direct(l.target)))
  }

  /** The stack pointer and FREE_MEMORY_END go up. */
  ghost predicate RaiseCode(v: Cells, l: Layout) {
    && Holds(v, l.pop + 4, Cp(l.ptr, REG_A)) && Holds(v, l.pop + 5, Cp(l.incr, REG_OP)) && Holds(v, l.pop + 6, Exec)
    && Holds(v, l.pop + 7, Cp(REG_RES, l.ptr))
    && Holds(v, l.pop + 8, Cp(FREE_MEMORY_END, REG_A)) && Holds(v, l.pop + 9, Cp(l.incr, REG_OP))
    && Holds(v, l.pop + 10, Exec)
    && Holds(v, l.pop + 11, Cp(REG_RES, FREE_MEMORY_END))
  }

  ghost predicate ResumeCode(v: Cells, l: Layout) {
    && Holds(v, l.pop + 12, Cp(l.keepA, REG_A)) && Holds(v, l.pop + 13, Cp(l.keepRes, REG_RES))
    && Holds(v, l.pop + 14, Cp(l.keepError, REG_ERROR)) && Holds(v, l.pop + 15, Jump(Always, Indirect(l.target)))
  }

  /** The kernel image is in place. */
  ghost predicate Linked(v: Cells, l: Layout)
    ensures Linked(v, l) ==> |v| > MIN_RAM_SIZE
  {
    && LayoutOk(l) && MIN_RAM_SIZE < |v| && l.varsEnd <= |v| && InInt(|v| + 1)
    && v[l.decr] == "3" && v[l.incr] == "2" && PushCode(v, l) && PopCode(v, l)
  }

  /** The code and its constants are the same in both memories. */
  ghost predicate SameCode(v: Cells, w: Cells, l: Layout) {
    |w| == |v| && forall i :: IsCode(l, i) && 0 <= i < |v| ==> w[i] == v[i]
  }

  lemma StaysLinked(v: Cells, w: Cells, l: Layout)
    requires Linked(v, l) && SameCode(v, w, l)
    ensures Linked(w, l)
  {
    hide Decode;
  }

  // ---- Counting ----

  /** The registers that counting uses. */
  predicate Temp(i: int) {
    i in {REG_A, REG_RES, REG_ERROR, SYS_ENERGY}
  }

  function Step1(op: int, n: int): int {
    if op == OP_INCR then n + 1 else n - 1
  }

  /** One increment or decrement of REG_A. */
  lemma CountAt(m: Machine, ins: seq<Inputs>, k: nat, pc: int, v: Cells, disks: Disks, op: int, n: int, e: int)
      returns (w: Cells)
    requires Valid(m) && k < |ins| && Poised(State(m, ins, k), pc, v, disks) && |v| > MIN_RAM_SIZE
    requires Holds(v, pc, Exec) && (op == OP_INCR || op == OP_DECR) && OpIsText(v[REG_OP], op)
    requires v[REG_A] == PrintInt(n) && InInt(n) && EnergyIn(v) == Some(e) && InInt(e + 1)
    ensures Poised(State(m, ins, k + 1), pc + 1, w, disks) && |w| == |v|
    ensures w[REG_RES] == PrintInt(Step1(op, n)) && w[REG_ERROR] == "" && EnergyIn(w) == Some(e + 1)
    ensures forall i :: 0 <= i < |v| && i !in {REG_RES, REG_ERROR, SYS_ENERGY} ==> w[i] == v[i]
  {
    hide Decode, Poised, State, Step, Stoi, PrintInt, Compute;
    RunStates(m, ins);
    IncreaseOf(n, ins[k]);
    DecreaseOf(n, ins[k]);
    ComputeStep(State(m, ins, k), ins[k], pc, v, disks, op, e, ResultOf(PrintInt(Step1(op, n))));
    EnergyAfter(v, e, op);
    w := Charged(v, e, op)[REG_RES := PrintInt(Step1(op, n))];
  }

  /** Copy a cell to REG_A, count, and copy the result to a cell. */
  lemma CountCellAt(m: Machine, ins: seq<Inputs>, k: nat, pc: int, v: Cells, disks: Disks, op: int, c: int, n: int,
                    e: int)
      returns (w: Cells)
    requires Valid(m) && k + 3 <= |ins| && Poised(State(m, ins, k), pc, v, disks) && |v| > MIN_RAM_SIZE
             && pc >= KERNEL_START
    requires Holds(v, pc, Cp(c, REG_A)) && Holds(v, pc + 1, Exec) && Holds(v, pc + 2, Cp(REG_RES, c))
    requires (op == OP_INCR || op == OP_DECR) && OpIsText(v[REG_OP], op) && Plain(v, c) && !Temp(c) && c != REG_OP
    requires !(pc <= c <= pc + 2) && v[c] == PrintInt(n) && InInt(n) && EnergyIn(v) == Some(e) && InInt(e + 1)
    ensures Poised(State(m, ins, k + 3), pc + 3, w, disks) && |w| == |v|
    ensures w[c] == PrintInt(Step1(op, n)) && EnergyIn(w) == Some(e + 1)
    ensures forall i :: 0 <= i < |v| && !Temp(i) && i != c ==> w[i] == v[i]
  {
    hide Decode, Poised, State, Step, Stoi, PrintInt;
    CopyAt(m, ins, k, pc, v, disks, c, REG_A);
    var v1 := v[REG_A := v[c]];
    var v2 := CountAt(m, ins, k + 1, pc + 1, v1, disks, op, n, e);
    CopyAt(m, ins, k + 2, pc + 2, v2, disks, REG_RES, c);
    w := v2[c := v2[REG_RES]];
  }

  /** Copy a cell to REG_A and add two; the sum is left in RES. */
  lemma AddTwoAt(m: Machine, ins: seq<Inputs>, k: nat, pc: int, v: Cells, disks: Disks, n: int, e: int)
      returns (w: Cells)
    requires Valid(m) && k + 3 <= |ins| && Poised(State(m, ins, k), pc, v, disks) && |v| > MIN_RAM_SIZE
             && pc >= KERNEL_START
    requires Holds(v, pc, Exec) && Holds(v, pc + 1, Cp(REG_RES, REG_A)) && Holds(v, pc + 2, Exec)
    requires OpIsText(v[REG_OP], OP_INCR) && v[REG_A] == PrintInt(n) && InInt(n) && InInt(n + 1)
    requires EnergyIn(v) == Some(e) && InInt(e + 1) && InInt(e + 2)
    ensures Poised(State(m, ins, k + 3), pc + 3, w, disks) && |w| == |v|
    ensures w[REG_RES] == PrintInt(n + 2) && EnergyIn(w) == Some(e + 2)
    ensures forall i :: 0 <= i < |v| && !Temp(i) ==> w[i] == v[i]
  {
    hide Decode, Poised, State, Step, Stoi, PrintInt;
    var v1 := CountAt(m, ins, k, pc, v, disks, OP_INCR, n, e);
    CopyAt(m, ins, k + 1, pc + 1, v1, disks, REG_RES, REG_A);
    var v2 := v1[REG_A := v1[REG_RES]];
    w := CountAt(m, ins, k + 2, pc + 2, v2, disks, OP_INCR, n + 1, e + 1);
  }

  // ---- Push ----

  /** Cells other than the stack's own variables, the counting registers and OP. */
  predicate Beside(l: Layout, i: int) {
    !IsVar(l, i) && !Temp(i) && i != REG_OP && i != FREE_MEMORY_END
  }

  lemma CodeKept(v: Cells, w: Cells, l: Layout)
    requires Linked(v, l) && |w| == |v| && forall i :: 0 <= i < |v| && Beside(l, i) ==> w[i] == v[i]
    ensures Linked(w, l)
  {
    hide Decode, PushCode, PopCode, Linked;
    LinkedLayout(v, l);
    StaysLinked(v, w, l);
  }

  lemma LinkedLayout(v: Cells, l: Layout)
    requires Linked(v, l)
    ensures LayoutOk(l)
  {
  }

  ghost predicate Pointed(w: Cells, v: Cells, l: Layout) {
    && REG_OP < |v| && 0 <= l.keepA < |v| && 0 <= l.ptr < |v|
    && w == v[l.keepA := v[REG_A]][REG_A := v[l.ptr]][REG_OP := "3"]
  }

  /** REG_A is kept, and the pointer and the operation are at hand. */
  lemma PointAt(m: Machine, ins: seq<Inputs>, k: nat, v: Cells, disks: Disks, l: Layout) returns (w: Cells)
    requires Valid(m) && k + 3 <= |ins| && Poised(State(m, ins, k), l.push, v, disks) && Linked(v, l)
    ensures Poised(State(m, ins, k + 3), l.push + 3, w, disks)
    ensures Pointed(w, v, l)
    ensures Holds(w, l.push + 3, Exec) && Holds(w, l.push + 4, Cp(REG_RES, l.ptr))
  {
    hide Decode, Poised, State, Step, Stoi, PrintInt, PopCode, StoreCode, LeaveCode;
    CopyAt(m, ins, k, l.push, v, disks, REG_A, l.keepA);
    var v1 := v[l.keepA := v[REG_A]];
    CopyAt(m, ins, k + 1, l.push + 1, v1, disks, l.ptr, REG_A);
    var v2 := v1[REG_A := v1[l.ptr]];
    CopyAt(m, ins, k + 2, l.push + 2, v2, disks, l.decr, REG_OP);
    w := v2[REG_OP := v2[l.decr]];
  }

  /** The pointer goes down. */
  lemma LowerAt(m: Machine, ins: seq<Inputs>, k: nat, v: Cells, disks: Disks, l: Layout, s: int, e: int)
      returns (w: Cells)
    requires Valid(m) && k + 5 <= |ins| && Poised(State(m, ins, k), l.push, v, disks) && Linked(v, l)
    requires v[l.ptr] == PrintInt(s) && InInt(s) && EnergyIn(v) == Some(e) && InInt(e + 1)
    ensures Poised(State(m, ins, k + 5), l.push + 5, w, disks) && Linked(w, l) && |w| == |v|
            && EnergyIn(w) == Some(e + 1)
    ensures w[l.ptr] == PrintInt(s - 1) && w[l.keepA] == v[REG_A] && OpIsText(w[REG_OP], OP_DECR)
    ensures forall i :: 0 <= i < |v| && !Temp(i) && i !in {REG_OP, l.keepA, l.ptr} ==> w[i] == v[i]
  {
    hide Decode, Poised, State, Step, Stoi, PrintInt, PopCode, PushCode, Holds;
    assert OpIsText("3", OP_DECR) by { CodeTexts(); }
    var v3 := PointAt(m, ins, k, v, disks, l);
    var v4 := CountAt(m, ins, k + 3, l.push + 3, v3, disks, OP_DECR, s, e);
    HeldThrough(v3, v4, l.push + 4, Cp(REG_RES, l.ptr));
    CopyAt(m, ins, k + 4, l.push + 4, v4, disks, REG_RES, l.ptr);
    w := v4[l.ptr := v4[REG_RES]];
    CodeKept(v, w, l);
  }

  /** The return address, plus two, is in RES. */
  lemma AddressAt(m: Machine, ins: seq<Inputs>, k: nat, v: Cells, disks: Disks, l: Layout, r: int, e: int)
      returns (w: Cells)
    requires Valid(m) && k + 5 <= |ins| && Poised(State(m, ins, k), l.push + 8, v, disks) && Linked(v, l)
    requires v[l.ret] == PrintInt(r) && InInt(r) && InInt(r + 1) && EnergyIn(v) == Some(e) && InInt(e + 1)
             && InInt(e + 2)
    ensures Poised(State(m, ins, k + 5), l.push + 13, w, disks) && |w| == |v| && EnergyIn(w) == Some(e + 2)
    ensures w[REG_RES] == PrintInt(r + 2) && OpIsText(w[REG_OP], OP_INCR)
    ensures forall i :: 0 <= i < |v| && !Temp(i) && i != REG_OP ==> w[i] == v[i]
    ensures Holds(w, l.push + 13, Copy(Direct(REG_RES), Indirect(l.ptr)))
  {
    hide Decode, Poised, State, Step, Stoi, PrintInt, PopCode, LowerCode, LeaveCode;
    assert OpIsText("2", OP_INCR) by { CodeTexts(); }
    CopyAt(m, ins, k, l.push + 8, v, disks, l.ret, REG_A);
    var v1 := v[REG_A := v[l.ret]];
    CopyAt(m, ins, k + 1, l.push + 9, v1, disks, l.incr, REG_OP);
    var v2 := v1[REG_OP := v1[l.incr]];
    w := AddTwoAt(m, ins, k + 2, l.push + 10, v2, disks, r, e);
  }

  /** It goes to the top of the stack. */
  lemma StoreAt(m: Machine, ins: seq<Inputs>, k: nat, v: Cells, disks: Disks, l: Layout, s: int, r: int, e: int)
      returns (w: Cells)
    requires Valid(m) && k + 6 <= |ins| && Poised(State(m, ins, k), l.push + 8, v, disks) && Linked(v, l)
    requires v[l.ptr] == PrintInt(s) && l.varsEnd <= s < |v|
    requires v[l.ret] == PrintInt(r) && InInt(r) && InInt(r + 1) && EnergyIn(v) == Some(e) && InInt(e + 1)
             && InInt(e + 2)
    ensures Poised(State(m, ins, k + 6), l.push + 14, w, disks) && Linked(w, l) && |w| == |v|
            && EnergyIn(w) == Some(e + 2)
    ensures w[s] == PrintInt(r + 2) && OpIsText(w[REG_OP], OP_INCR)
    ensures forall i :: 0 <= i < |v| && !Temp(i) && i !in {REG_OP, s} ==> w[i] == v[i]
  {
    hide Decode, Poised, State, Step, Stoi, PrintInt, PopCode, PushCode, Holds;
    StoiPrint(s);
    var v3 := AddressAt(m, ins, k, v, disks, l, r, e);
    RunStates(m, ins);
    CopyToPointerStep(State(m, ins, k + 5), ins[k + 5], l.push + 13, v3, disks, REG_RES, l.ptr, s);
    w := v3[s := v3[REG_RES]];
    StackIsNotCode(v, w, l, s);
  }

  lemma StackIsNotCode(v: Cells, w: Cells, l: Layout, s: int)
    requires Linked(v, l) && |w| == |v| && l.varsEnd <= s
    requires forall i :: 0 <= i < |v| && !Temp(i) && i !in {REG_OP, s} ==> w[i] == v[i]
    ensures Linked(w, l)
  {
    hide Decode, PushCode, PopCode, Linked;
    LinkedLayout(v, l);
    StaysLinked(v, w, l);
  }

  /** The return address of the caller, plus two, is in its variable. */
  lemma AimAt(m: Machine, ins: seq<Inputs>, k: nat, v: Cells, disks: Disks, l: Layout, q: int, e: int)
      returns (w: Cells)
    requires Valid(m) && k + 5 <= |ins| && Poised(State(m, ins, k), l.push + 14, v, disks) && Linked(v, l)
    requires v[l.here] == PrintInt(q) && InInt(q) && InInt(q + 1) && OpIsText(v[REG_OP], OP_INCR)
    requires EnergyIn(v) == Some(e) && InInt(e + 1) && InInt(e + 2)
    ensures Poised(State(m, ins, k + 5), l.push + 19, w, disks) && |w| == |v| && EnergyIn(w) == Some(e + 2)
    ensures w[l.here] == PrintInt(q + 2) && forall i :: 0 <= i < |v| && !Temp(i) && i != l.here ==> w[i] == v[i]
    ensures Holds(w, l.push + 19, Cp(l.keepA, REG_A)) && Holds(w, l.push + 20, Jump(Always, Indirect(l.here)))
  {
    hide Decode, Poised, State, Step, Stoi, PrintInt, PopCode, LowerCode, StoreCode;
    CopyAt(m, ins, k, l.push + 14, v, disks, l.here, REG_A);
    var v1 := v[REG_A := v[l.here]];
    var v2 := AddTwoAt(m, ins, k + 1, l.push + 15, v1, disks, q, e);
    CopyAt(m, ins, k + 4, l.push + 18, v2, disks, REG_RES, l.here);
    w := v2[l.here := v2[REG_RES]];
  }

  /** Back to the routine behind its jump, with REG_A restored. */
  lemma LeaveAt(m: Machine, ins: seq<Inputs>, k: nat, v: Cells, disks: Disks, l: Layout, q: int, e: int)
      returns (w: Cells)
    requires Valid(m) && k + 7 <= |ins| && Poised(State(m, ins, k), l.push + 14, v, disks) && Linked(v, l)
    requires v[l.here] == PrintInt(q) && InInt(q) && InInt(q + 1) && InInt(q + 2) && OpIsText(v[REG_OP], OP_INCR)
    requires EnergyIn(v) == Some(e) && InInt(e + 1) && InInt(e + 2)
    ensures Poised(State(m, ins, k + 7), q + 2, w, disks) && Linked(w, l) && |w| == |v| && EnergyIn(w) == Some(e + 2)
    ensures w[REG_A] == v[l.keepA] && forall i :: 0 <= i < |v| && !Temp(i) && i != l.here ==> w[i] == v[i]
  {
    hide Decode, Poised, State, Step, Stoi, PrintInt, PushCode, PopCode, Holds;
    StoiPrint(q + 2);
    var v3 := AimAt(m, ins, k, v, disks, l, q, e);
    CopyAt(m, ins, k + 5, l.push + 19, v3, disks, l.keepA, REG_A);
    w := v3[REG_A := v3[l.keepA]];
    HeldThrough(v3, w, l.push + 20, Jump(Always, Indirect(l.here)));
    RunStates(m, ins);
    JumpByPointerStep(State(m, ins, k + 6), ins[k + 6], l.push + 20, w, disks, l.here, q + 2);
    CodeKept(v, w, l);
  }

  /** FREE_MEMORY_END goes down. */
  lemma ShrinkAt(m: Machine, ins: seq<Inputs>, k: nat, v: Cells, disks: Disks, l: Layout, n: int, e: int)
      returns (w: Cells)
    requires Valid(m) && k + 3 <= |ins| && Poised(State(m, ins, k), l.push + 5, v, disks) && Linked(v, l)
    requires v[FREE_MEMORY_END] == PrintInt(n) && InInt(n) && OpIsText(v[REG_OP], OP_DECR) && EnergyIn(v) == Some(e)
             && InInt(e + 1)
    ensures Poised(State(m, ins, k + 3), l.push + 8, w, disks) && Linked(w, l) && |w| == |v|
            && EnergyIn(w) == Some(e + 1)
    ensures w[FREE_MEMORY_END] == PrintInt(n - 1)
    ensures forall i :: 0 <= i < |v| && !Temp(i) && i != FREE_MEMORY_END ==> w[i] == v[i]
  {
    hide Decode, Poised, State, Step, Stoi, PrintInt, PopCode, LowerCode, StoreCode, LeaveCode;
    w := CountCellAt(m, ins, k, l.push + 5, v, disks, OP_DECR, FREE_MEMORY_END, n, e);
    CodeKept(v, w, l);
  }

  /** Stack pointer s, one behind FREE_MEMORY_END, above the variables and inside memory. */
  ghost predicate StackAt(v: Cells, l: Layout, s: int) {
    && Linked(v, l) && v[l.ptr] == PrintInt(s) && v[FREE_MEMORY_END] == PrintInt(s - 1) && l.varsEnd <= s <= |v|
  }

  /** The push routine: the address in `ret`, plus two, becomes the top of the stack; control
      returns two behind the address in `here`; other memory is unchanged. */
  lemma PushRuns(m: Machine, ins: seq<Inputs>, k: nat, v: Cells, disks: Disks, l: Layout, s: int, r: int, q: int,
                 e: int)
      returns (w: Cells)
    requires Valid(m) && k + 21 <= |ins| && Poised(State(m, ins, k), l.push, v, disks) && StackAt(v, l, s)
             && l.varsEnd < s
    requires v[l.ret] == PrintInt(r) && v[l.here] == PrintInt(q) && EnergyIn(v) == Some(e)
    requires 0 <= r && InInt(r + 2) && 0 <= q && InInt(q + 2) && 0 <= e && InInt(e + 6)
    ensures Poised(State(m, ins, k + 21), q + 2, w, disks) && StackAt(w, l, s - 1) && EnergyIn(w) == Some(e + 6)
    ensures |w| == |v| && w[s - 1] == PrintInt(r + 2) && w[REG_A] == v[REG_A]
    ensures forall i :: 0 <= i < |v| && Beside(l, i) && i != s - 1 ==> w[i] == v[i]
  {
    hide Decode, Poised, State, Step, Stoi, PrintInt, PushCode, PopCode, EnergyIn;
    var v1 := LowerAt(m, ins, k, v, disks, l, s, e);
    var v2 := ShrinkAt(m, ins, k + 5, v1, disks, l, s - 1, e + 1);
    var v3 := StoreAt(m, ins, k + 8, v2, disks, l, s - 1, r, e + 2);
    w := LeaveAt(m, ins, k + 14, v3, disks, l, q, e + 4);
  }

  // ---- Pop ----

  /** The result registers are kept. */
  lemma KeepAt(m: Machine, ins: seq<Inputs>, k: nat, v: Cells, disks: Disks, l: Layout) returns (w: Cells)
    requires Valid(m) && k + 3 <= |ins| && Poised(State(m, ins, k), l.pop, v, disks) && Linked(v, l)
    ensures Poised(State(m, ins, k + 3), l.pop + 3, w, disks) && |w| == |v|
    ensures w[l.keepA] == v[REG_A] && w[l.keepRes] == v[REG_RES] && w[l.keepError] == v[REG_ERROR]
    ensures forall i :: 0 <= i < |v| && i !in {l.keepA, l.keepRes, l.keepError} ==> w[i] == v[i]
    ensures Holds(w, l.pop + 3, Copy(Indirect(l.ptr), Direct(l.target)))
  {
    hide Decode, Poised, State, Step, Stoi, PrintInt, PushCode, RaiseCode, ResumeCode;
    CopyAt(m, ins, k, l.pop, v, disks, REG_A, l.keepA);
    var v1 := v[l.keepA := v[REG_A]];
    CopyAt(m, ins, k + 1, l.pop + 1, v1, disks, REG_RES, l.keepRes);
    var v2 := v1[l.keepRes := v1[REG_RES]];
    CopyAt(m, ins, k + 2, l.pop + 2, v2, disks, REG_ERROR, l.keepError);
    w := v2[l.keepError := v2[REG_ERROR]];
  }

  /** Then the top of the stack is read. */
  lemma TakeAt(m: Machine, ins: seq<Inputs>, k: nat, v: Cells, disks: Disks, l: Layout, s: int) returns (w: Cells)
    requires Valid(m) && k + 4 <= |ins| && Poised(State(m, ins, k), l.pop, v, disks) && StackAt(v, l, s) && s < |v|
    ensures Poised(State(m, ins, k + 4), l.pop + 4, w, disks) && StackAt(w, l, s) && |w| == |v|
    ensures w[l.keepA] == v[REG_A] && w[l.keepRes] == v[REG_RES] && w[l.keepError] == v[REG_ERROR]
            && w[l.target] == v[s]
    ensures forall i :: 0 <= i < |v| && i !in {l.keepA, l.keepRes, l.keepError, l.target} ==> w[i] == v[i]
  {
    hide Decode, Poised, State, Step, Stoi, PrintInt, PushCode, PopCode, Holds;
    StoiPrint(s);
    var v3 := KeepAt(m, ins, k, v, disks, l);
    RunStates(m, ins);
    CopyFromPointerStep(State(m, ins, k + 3), ins[k + 3], l.pop + 3, v3, disks, l.ptr, s, l.target);
    w := v3[l.target := v3[s]];
    CodeKept(v, w, l);
  }

  /** The stack pointer goes up. */
  lemma RaiseAt(m: Machine, ins: seq<Inputs>, k: nat, v: Cells, disks: Disks, l: Layout, s: int, e: int)
      returns (w: Cells)
    requires Valid(m) && k + 4 <= |ins| && Poised(State(m, ins, k), l.pop + 4, v, disks) && StackAt(v, l, s) && s < |v|
    requires EnergyIn(v) == Some(e) && 0 <= e && InInt(e + 2)
    ensures Poised(State(m, ins, k + 4), l.pop + 8, w, disks) && Linked(w, l) && |w| == |v|
            && EnergyIn(w) == Some(e + 1)
    ensures w[l.ptr] == PrintInt(s + 1) && forall i :: 0 <= i < |v| && !Temp(i) && i !in {REG_OP, l.ptr} ==>
              w[i] == v[i]
  {
    hide Decode, Poised, State, Step, Stoi, PrintInt, PushCode, TakeCode, ResumeCode, EnergyIn;
    assert OpIsText("2", OP_INCR) by { CodeTexts(); }
    CopyAt(m, ins, k, l.pop + 4, v, disks, l.ptr, REG_A);
    var v1 := v[REG_A := v[l.ptr]];
    CopyAt(m, ins, k + 1, l.pop + 5, v1, disks, l.incr, REG_OP);
    var v2 := v1[REG_OP := v1[l.incr]];
    assert EnergyIn(v2) == Some(e) by { SameEnergy(v, v2); }
    var v3 := CountAt(m, ins, k + 2, l.pop + 6, v2, disks, OP_INCR, s, e);
    CopyAt(m, ins, k + 3, l.pop + 7, v3, disks, REG_RES, l.ptr);
    w := v3[l.ptr := v3[REG_RES]];
    assert EnergyIn(w) == Some(e + 1) by { SameEnergy(v3, w); }
    CodeKept(v, w, l);
  }

  /** FREE_MEMORY_END goes up. */
  lemma GrowAt(m: Machine, ins: seq<Inputs>, k: nat, v: Cells, disks: Disks, l: Layout, n: int, e: int)
      returns (w: Cells)
    requires Valid(m) && k + 4 <= |ins| && Poised(State(m, ins, k), l.pop + 8, v, disks) && Linked(v, l)
    requires v[FREE_MEMORY_END] == PrintInt(n) && InInt(n) && EnergyIn(v) == Some(e) && InInt(e + 1)
    ensures Poised(State(m, ins, k + 4), l.pop + 12, w, disks) && Linked(w, l) && |w| == |v|
            && EnergyIn(w) == Some(e + 1)
    ensures w[FREE_MEMORY_END] == PrintInt(n + 1)
    ensures forall i :: 0 <= i < |v| && !Temp(i) && i !in {REG_OP, FREE_MEMORY_END} ==> w[i] == v[i]
  {
    hide Decode, Poised, State, Step, Stoi, PrintInt, PushCode, TakeCode, ResumeCode, EnergyIn;
    assert OpIsText("2", OP_INCR) by { CodeTexts(); }
    CopyAt(m, ins, k, l.pop + 8, v, disks, FREE_MEMORY_END, REG_A);
    var v1 := v[REG_A := v[FREE_MEMORY_END]];
    CopyAt(m, ins, k + 1, l.pop + 9, v1, disks, l.incr, REG_OP);
    var v2 := v1[REG_OP := v1[l.incr]];
    assert EnergyIn(v2) == Some(e) by { SameEnergy(v, v2); }
    var v3 := CountAt(m, ins, k + 2, l.pop + 10, v2, disks, OP_INCR, n, e);
    CopyAt(m, ins, k + 3, l.pop + 11, v3, disks, REG_RES, FREE_MEMORY_END);
    w := v3[FREE_MEMORY_END := v3[REG_RES]];
    assert EnergyIn(w) == Some(e + 1) by { SameEnergy(v3, w); }
    CodeKept(v, w, l);
  }

  /** The last part of the pop routine, with its variables clear of registers. */
  ghost predicate ResumeReady(v: Cells, l: Layout) {
    && ResumeCode(v, l) && l.pop >= KERNEL_START && |v| > MIN_RAM_SIZE
    && l.keepA > REG_ERROR && l.keepRes > REG_ERROR && l.keepError > REG_ERROR && l.target > REG_ERROR
    && Plain(v, l.keepA) && Plain(v, l.keepRes) && Plain(v, l.keepError) && Plain(v, l.target)
  }

  lemma LinkedResumes(v: Cells, l: Layout)
    requires Linked(v, l)
    ensures ResumeReady(v, l)
  {
    hide Decode, PushCode, TakeCode, RaiseCode, ResumeCode;
  }

  lemma ResumeAt(m: Machine, ins: seq<Inputs>, k: nat, v: Cells, disks: Disks, l: Layout, t: int) returns (w: Cells)
    requires Valid(m) && k + 4 <= |ins| && Poised(State(m, ins, k), l.pop + 12, v, disks) && ResumeReady(v, l)
    requires v[l.target] == PrintInt(t) && InInt(t) && InInt(t - 1)
    ensures Poised(State(m, ins, k + 4), t, w, disks) && |w| == |v|
    ensures w == v[REG_A := v[l.keepA]][REG_RES := v[l.keepRes]][REG_ERROR := v[l.keepError]]
  {
    hide Decode, Poised, State, Step, Stoi, PrintInt, Holds;
    w := RestoreAt(m, ins, k, v, disks, l);
    StoiPrint(t);
    RunStates(m, ins);
    HeldThrough(v, w, l.pop + 15, Jump(Always, Indirect(l.target)));
    JumpByPointerStep(State(m, ins, k + 3), ins[k + 3], l.pop + 15, w, disks, l.target, t);
  }

  lemma RestoreAt(m: Machine, ins: seq<Inputs>, k: nat, v: Cells, disks: Disks, l: Layout) returns (w: Cells)
    requires Valid(m) && k + 4 <= |ins| && Poised(State(m, ins, k), l.pop + 12, v, disks) && ResumeReady(v, l)
    ensures Poised(State(m, ins, k + 3), l.pop + 15, w, disks) && |w| == |v|
    ensures w == v[REG_A := v[l.keepA]][REG_RES := v[l.keepRes]][REG_ERROR := v[l.keepError]]
  {
    hide Decode, Poised, State, Step, Stoi, PrintInt, Holds;
    CopyAt(m, ins, k, l.pop + 12, v, disks, l.keepA, REG_A);
    var v1 := v[REG_A := v[l.keepA]];
    HeldThrough(v, v1, l.pop + 13, Cp(l.keepRes, REG_RES));
    CopyAt(m, ins, k + 1, l.pop + 13, v1, disks, l.keepRes, REG_RES);
    var v2 := v1[REG_RES := v1[l.keepRes]];
    HeldThrough(v, v2, l.pop + 14, Cp(l.keepError, REG_ERROR));
    CopyAt(m, ins, k + 2, l.pop + 14, v2, disks, l.keepError, REG_ERROR);
    w := v2[REG_ERROR := v2[l.keepError]];
  }

  /** The pop routine: control goes to the address on top of the stack; REG_A, RES, ERROR and all
      memory beside the stack's variables are as the caller of the routine left them. */
  lemma PopRuns(m: Machine, ins: seq<Inputs>, k: nat, v: Cells, disks: Disks, l: Layout, s: int, t: int, e: int)
      returns (w: Cells)
    requires Valid(m) && k + 16 <= |ins| && Poised(State(m, ins, k), l.pop, v, disks) && StackAt(v, l, s) && s < |v|
    requires v[s] == PrintInt(t) && InInt(t) && InInt(t - 1) && EnergyIn(v) == Some(e) && 0 <= e && InInt(e + 2)
    ensures Poised(State(m, ins, k + 16), t, w, disks) && StackAt(w, l, s + 1) && EnergyIn(w) == Some(e + 2)
            && |w| == |v|
    ensures w[REG_A] == v[REG_A] && w[REG_RES] == v[REG_RES] && w[REG_ERROR] == v[REG_ERROR]
    ensures forall i :: 0 <= i < |v| && Beside(l, i) ==> w[i] == v[i]
  {
    hide Decode, Poised, State, Step, Stoi, PrintInt, PushCode, PopCode, EnergyIn;
    var v1 := TakeAt(m, ins, k, v, disks, l, s);
    assert EnergyIn(v1) == Some(e) by { SameEnergy(v, v1); }
    var v2 := RaiseAt(m, ins, k + 4, v1, disks, l, s, e);
    var v3 := GrowAt(m, ins, k + 8, v2, disks, l, s - 1, e + 1);
    LinkedResumes(v3, l);
    w := ResumeAt(m, ins, k + 12, v3, disks, l, t);
    assert EnergyIn(w) == Some(e + 2) by { SameEnergy(v3, w); }
    CodeKept(v3, w, l);
  }

  // ---- Calls ----

  /** A call site and the entry of a routine that takes part in the convention. */
  ghost predicate CallCode(v: Cells, l: Layout, site: int, callee: int) {
    && IsCode(l, site) && IsCode(l, site + 1) && IsCode(l, callee) && IsCode(l, callee + 1)
    && Holds(v, site, Cp(PROGRAM_COUNTER, l.ret)) && Holds(v, site + 1, Jump(Always, Direct(callee)))
    && Holds(v, callee, Cp(PROGRAM_COUNTER, l.here)) && Holds(v, callee + 1, Jump(Always, Direct(l.push)))
  }

  lemma CopyPcAt(m: Machine, ins: seq<Inputs>, k: nat, pc: int, v: Cells, disks: Disks, d: int)
    requires Valid(m) && k < |ins| && Poised(State(m, ins, k), pc, v, disks)
    requires Holds(v, pc, Cp(PROGRAM_COUNTER, d)) && Plain(v, d)
    ensures Poised(State(m, ins, k + 1), pc + 1, v[d := PrintInt(pc)], disks)
  {
    hide Decode, Step, Poised, State;
    RunStates(m, ins);
    CopyPcStep(State(m, ins, k), ins[k], pc, v, disks, d);
  }

  const CALL_STEPS := 25

  /** A call: control is behind the entry of the routine, the address behind the call site's jump
      is on top of the stack, registers other than OP, RES and ERROR are as the caller left them. */
  lemma CallRuns(m: Machine, ins: seq<Inputs>, k: nat, v: Cells, disks: Disks, l: Layout, s: int, site: int,
                 callee: int, e: int)
      returns (w: Cells)
    requires Valid(m) && k + CALL_STEPS <= |ins| && Poised(State(m, ins, k), site, v, disks) && StackAt(v, l, s)
             && l.varsEnd < s
    requires CallCode(v, l, site, callee) && EnergyIn(v) == Some(e) && 0 <= e && InInt(e + 6)
    ensures Poised(State(m, ins, k + CALL_STEPS), callee + 2, w, disks) && StackAt(w, l, s - 1)
            && EnergyIn(w) == Some(e + 6)
    ensures |w| == |v| && w[s - 1] == PrintInt(site + 2) && w[REG_A] == v[REG_A]
    ensures forall i :: 0 <= i < |v| && Beside(l, i) && i != s - 1 ==> w[i] == v[i]
  {
    hide Decode, Poised, State, Step, Stoi, PrintInt, PushCode, PopCode, EnergyIn;
    CopyPcAt(m, ins, k, site, v, disks, l.ret);
    var v1 := v[l.ret := PrintInt(site)];
    JumpAt(m, ins, k + 1, site + 1, v1, disks, Always, callee);
    CopyPcAt(m, ins, k + 2, callee, v1, disks, l.here);
    var v2 := v1[l.here := PrintInt(callee)];
    JumpAt(m, ins, k + 3, callee + 1, v2, disks, Always, l.push);
    CodeKept(v, v2, l);
    assert EnergyIn(v2) == Some(e) by { SameEnergy(v, v2); }
    w := PushRuns(m, ins, k + 4, v2, disks, l, s, site, callee, e);
  }

  const RETURN_STEPS := 17

  /** A return: the routine's jump to the pop routine, and the pop. */
  lemma ReturnRuns(m: Machine, ins: seq<Inputs>, k: nat, v: Cells, disks: Disks, l: Layout, s: int, exit: int, t: int,
                   e: int)
      returns (w: Cells)
    requires Valid(m) && k + RETURN_STEPS <= |ins| && Poised(State(m, ins, k), exit, v, disks) && StackAt(v, l, s)
             && s < |v|
    requires Holds(v, exit, Jump(Always, Direct(l.pop)))
    requires v[s] == PrintInt(t) && InInt(t) && InInt(t - 1) && EnergyIn(v) == Some(e) && 0 <= e && InInt(e + 2)
    ensures Poised(State(m, ins, k + RETURN_STEPS), t, w, disks) && StackAt(w, l, s + 1) && EnergyIn(w) == Some(e + 2)
            && |w| == |v|
    ensures w[REG_A] == v[REG_A] && w[REG_RES] == v[REG_RES] && w[REG_ERROR] == v[REG_ERROR]
    ensures forall i :: 0 <= i < |v| && Beside(l, i) ==> w[i] == v[i]
  {
    hide Decode, Poised, State, Step, Stoi, PrintInt, PushCode, PopCode, EnergyIn;
    JumpAt(m, ins, k, exit, v, disks, Always, l.pop);
    w := PopRuns(m, ins, k + 1, v, disks, l, s, t, e);
  }

  // ---- Properly nested runs ----

  /** What a routine does: straight work of some steps that ends before the instruction at `next`,
      or a call of a routine with its own activities, which returns from `exit`. */
  datatype Activity = Work(steps: nat, next: int) | Call(callee: int, body: seq<Activity>, exit: int)

  function Steps(acts: seq<Activity>): nat {
    if acts == [] then 0 else StepsOf(acts[0]) + Steps(acts[1..])
  }

  function StepsOf(act: Activity): nat {
    match act
    case Work(steps, _) => steps
    case Call(_, body, _) => CALL_STEPS + Steps(body) + RETURN_STEPS
  }

  /** Work leaves the code, the stack and its pointers alone. */
  ghost predicate Respects(v: Cells, w: Cells, l: Layout, s: int) {
    && |w| == |v| && (forall i :: IsCode(l, i) && 0 <= i < |v| ==> w[i] == v[i])
    && (forall i :: s <= i < |v| && 0 <= i ==> w[i] == v[i])
    && |v| > FREE_MEMORY_END && w[FREE_MEMORY_END] == v[FREE_MEMORY_END]
    && 0 <= l.ptr < |v| && w[l.ptr] == v[l.ptr]
  }

  /** The energy counter is readable and has room for a call. */
  predicate HasEnergy(v: Cells) {
    |v| > SYS_ENERGY && EnergyIn(v).Some? && 0 <= EnergyIn(v).value && InInt(EnergyIn(v).value + 6)
  }

  /** The run from step k on consists of the given activities: work that respects the stack, and
      calls through the convention. Nothing is said about where calls return to. */
  ghost predicate Does(m: Machine, ins: seq<Inputs>, k: nat, pc: int, acts: seq<Activity>, end: int, l: Layout, s: int)
    requires Valid(m) && k + Steps(acts) <= |ins|
    decreases acts
  {
    if acts == [] then pc == end
    else
      && DoesOne(m, ins, k, pc, acts[0], After(pc, acts[0]), l, s)
      && Does(m, ins, k + StepsOf(acts[0]), After(pc, acts[0]), acts[1..], end, l, s)
  }

  /** Where the text of a routine continues behind an activity. */
  function After(pc: int, act: Activity): int {
    match act case Work(_, next) => next case Call(_, _, _) => pc + 2
  }

  ghost predicate DoesOne(m: Machine, ins: seq<Inputs>, k: nat, pc: int, act: Activity, next: int, l: Layout, s: int)
    requires Valid(m) && k + StepsOf(act) <= |ins|
    decreases act
  {
    match act
    case Work(steps, _) => Works(m, ins, k, pc, steps, next, l, s)
    case Call(callee, body, exit) =>
      && l.varsEnd < s && HasEnergy(Visible(State(m, ins, k))) && CallCode(Visible(State(m, ins, k)), l, pc, callee)
      && Does(m, ins, k + CALL_STEPS, callee + 2, body, exit, l, s - 1)
      && var v := Visible(State(m, ins, k + CALL_STEPS + Steps(body)));
         HasEnergy(v) && IsCode(l, exit) && Holds(v, exit, Jump(Always, Direct(l.pop)))
  }

  /** Work, wherever it is done: if the machine is about to do it, it ends at `next` and has
      respected the stack. */
  ghost predicate Works(m: Machine, ins: seq<Inputs>, k: nat, pc: int, steps: nat, next: int, l: Layout, s: int)
    requires Valid(m) && k + steps <= |ins|
  {
    var a, b := State(m, ins, k), State(m, ins, k + steps);
    Poised(a, pc, Visible(a), a.disks) ==>
      Poised(b, next, Visible(b), b.disks) && Respects(Visible(a), Visible(b), l, s)
  }

  lemma RespectKeepsStack(v: Cells, w: Cells, l: Layout, s: int)
    requires StackAt(v, l, s) && Respects(v, w, l, s)
    ensures StackAt(w, l, s)
  {
    hide PrintInt, Linked, LayoutOk;
    LinkedLayout(v, l);
    StaysLinked(v, w, l);
  }

  lemma PoisedIsVisible(m: Machine, pc: int, v: Cells, disks: Disks)
    requires Poised(m, pc, v, disks)
    ensures Valid(m) && v == Visible(m) && disks == m.disks
  {
  }

  /** The state of a run at step k is about to execute the instruction at pc, with stack pointer s. */
  ghost predicate OnStack(m: Machine, ins: seq<Inputs>, k: nat, pc: int, l: Layout, s: int)
    requires Valid(m) && k <= |ins|
  {
    var a := State(m, ins, k);
    Valid(a) && Poised(a, pc, Visible(a), a.disks) && StackAt(Visible(a), l, s)
  }

  /** The stack cells from s up are the same at steps i and j. */
  ghost predicate SameStack(m: Machine, ins: seq<Inputs>, i: nat, j: nat, s: int)
    requires Valid(m) && i <= |ins| && j <= |ins|
  {
    var v, w := Visible(State(m, ins, i)), Visible(State(m, ins, j));
    |v| == |w| && forall c :: s <= c < |v| && 0 <= c ==> w[c] == v[c]
  }

  /** Registers B to F, A, RES, BOOL_RES and ERROR are the same at steps i and j. */
  ghost predicate SameResults(m: Machine, ins: seq<Inputs>, i: nat, j: nat)
    requires Valid(m) && i <= |ins| && j <= |ins|
  {
    forall r :: 1 <= r <= REG_ERROR && r != REG_OP ==> Visible(State(m, ins, j))[r] == Visible(State(m, ins, i))[r]
  }

  lemma EntersCall(m: Machine, ins: seq<Inputs>, k: nat, pc: int, callee: int, body: seq<Activity>, exit: int,
                   l: Layout, s: int)
    requires Valid(m) && k + StepsOf(Call(callee, body, exit)) <= |ins| && OnStack(m, ins, k, pc, l, s)
    requires DoesOne(m, ins, k, pc, Call(callee, body, exit), pc + 2, l, s)
    ensures OnStack(m, ins, k + CALL_STEPS, callee + 2, l, s - 1) && SameStack(m, ins, k, k + CALL_STEPS, s)
    ensures Visible(State(m, ins, k + CALL_STEPS))[s - 1] == PrintInt(pc + 2) && l.varsEnd < s <= Size(m) + 1
    ensures InInt(pc + 2) && InInt(pc + 1) && 0 <= s - 1 < |m.cells|
  {
    hide Poised, Linked, Holds, Does, PrintInt, EnergyIn;
    var a := State(m, ins, k);
    var w := CallRuns(m, ins, k, Visible(a), a.disks, l, s, pc, callee, EnergyIn(Visible(a)).value);
    PoisedIsVisible(State(m, ins, k + CALL_STEPS), callee + 2, w, a.disks);
    LinkedLayout(Visible(a), l);
  }

  lemma LeavesCall(m: Machine, ins: seq<Inputs>, k: nat, exit: int, l: Layout, s: int, t: int)
    requires Valid(m) && k + RETURN_STEPS <= |ins| && OnStack(m, ins, k, exit, l, s) && 0 <= s < |m.cells|
    requires Visible(State(m, ins, k))[s] == PrintInt(t) && InInt(t) && InInt(t - 1)
    requires HasEnergy(Visible(State(m, ins, k))) && Holds(Visible(State(m, ins, k)), exit, Jump(Always, Direct(l.pop)))
    ensures OnStack(m, ins, k + RETURN_STEPS, t, l, s + 1) && SameStack(m, ins, k, k + RETURN_STEPS, s + 1)
    ensures SameResults(m, ins, k, k + RETURN_STEPS)
  {
    hide Poised, Linked, Holds, PrintInt, EnergyIn;
    var a := State(m, ins, k);
    var w := ReturnRuns(m, ins, k, Visible(a), a.disks, l, s, exit, t, EnergyIn(Visible(a)).value);
    PoisedIsVisible(State(m, ins, k + RETURN_STEPS), t, w, a.disks);
    LinkedLayout(Visible(a), l);
  }

  /** The call stack discipline: in any properly nested run, every call comes back behind its call
      site's jump, with the stack pointer and FREE_MEMORY_END as before the call and the outer
      stack intact. */
  lemma {:induction false} NestedCallsReturn(m: Machine, ins: seq<Inputs>, k: nat, pc: int, acts: seq<Activity>,
                                             end: int, l: Layout, s: int)
    requires Valid(m) && k + Steps(acts) <= |ins| && Does(m, ins, k, pc, acts, end, l, s)
             && OnStack(m, ins, k, pc, l, s)
    ensures OnStack(m, ins, k + Steps(acts), end, l, s) && SameStack(m, ins, k, k + Steps(acts), s)
    decreases acts, 2
  {
    hide OnStack, DoesOne;
    if acts != [] {
      OneReturns(m, ins, k, pc, acts[0], l, s);
      NestedCallsReturn(m, ins, k + StepsOf(acts[0]), After(pc, acts[0]), acts[1..], end, l, s);
    }
  }

  lemma {:induction false} OneReturns(m: Machine, ins: seq<Inputs>, k: nat, pc: int, act: Activity, l: Layout, s: int)
    requires Valid(m) && k + StepsOf(act) <= |ins| && DoesOne(m, ins, k, pc, act, After(pc, act), l, s)
             && OnStack(m, ins, k, pc, l, s)
    ensures OnStack(m, ins, k + StepsOf(act), After(pc, act), l, s) && SameStack(m, ins, k, k + StepsOf(act), s)
    decreases act, 1
  {
    hide OnStack, SameStack, Does, Works, CallCode, HasEnergy, Holds, State, Visible;
    if act.Work? {
      WorkKeeps(m, ins, k, pc, act.steps, act.next, l, s);
    } else {
      CallReturns(m, ins, k, pc, act, l, s);
    }
  }

  lemma {:induction false} CallReturns(m: Machine, ins: seq<Inputs>, k: nat, pc: int, act: Activity, l: Layout, s: int)
    requires Valid(m) && k + StepsOf(act) <= |ins| && act.Call? && DoesOne(m, ins, k, pc, act, pc + 2, l, s)
    requires OnStack(m, ins, k, pc, l, s)
    ensures OnStack(m, ins, k + StepsOf(act), pc + 2, l, s) && SameStack(m, ins, k, k + StepsOf(act), s)
    decreases act, 0
  {
    hide OnStack, SameResults, Does, DoesOne, PrintInt, State, Visible, HasEnergy, Holds, SameStack;
    var body, exit := act.body, act.exit;
    EntersCall(m, ins, k, pc, act.callee, body, exit, l, s);
    DoesBody(m, ins, k, pc, act.callee, body, exit, l, s);
    NestedCallsReturn(m, ins, k + CALL_STEPS, act.callee + 2, body, exit, l, s - 1);
    var leave := k + CALL_STEPS + Steps(body);
    TopStays(m, ins, k + CALL_STEPS, leave, s - 1, act.callee + 2, exit, l);
    LeavesCall(m, ins, leave, exit, l, s - 1, pc + 2);
    StackThrough(m, ins, k, k + CALL_STEPS, leave, leave + RETURN_STEPS, s);
  }

  lemma DoesBody(m: Machine, ins: seq<Inputs>, k: nat, pc: int, callee: int, body: seq<Activity>, exit: int,
                 l: Layout, s: int)
    requires Valid(m) && k + StepsOf(Call(callee, body, exit)) <= |ins|
    requires DoesOne(m, ins, k, pc, Call(callee, body, exit), pc + 2, l, s)
    ensures Does(m, ins, k + CALL_STEPS, callee + 2, body, exit, l, s - 1)
    ensures var v := Visible(State(m, ins, k + CALL_STEPS + Steps(body)));
            HasEnergy(v) && Holds(v, exit, Jump(Always, Direct(l.pop)))
  {
    hide Poised, Linked, Holds, StackAt, HasEnergy, CallCode, State, Visible;
  }

  lemma WorkKeeps(m: Machine, ins: seq<Inputs>, k: nat, pc: int, steps: nat, next: int, l: Layout, s: int)
    requires Valid(m) && k + steps <= |ins| && Works(m, ins, k, pc, steps, next, l, s) && OnStack(m, ins, k, pc, l, s)
    ensures OnStack(m, ins, k + steps, next, l, s) && SameStack(m, ins, k, k + steps, s)
  {
    hide Poised, StackAt;
    RespectKeepsStack(Visible(State(m, ins, k)), Visible(State(m, ins, k + steps)), l, s);
  }

  /** What a call gives its caller: the registers that the routine left at its exit, except OP. */
  lemma CallKeepsResults(m: Machine, ins: seq<Inputs>, k: nat, pc: int, callee: int, body: seq<Activity>, exit: int,
                         l: Layout, s: int)
    requires Valid(m) && k + StepsOf(Call(callee, body, exit)) <= |ins| && OnStack(m, ins, k, pc, l, s)
    requires DoesOne(m, ins, k, pc, Call(callee, body, exit), pc + 2, l, s)
    ensures var leave := k + CALL_STEPS + Steps(body);
            OnStack(m, ins, leave, exit, l, s - 1) && OnStack(m, ins, leave + RETURN_STEPS, pc + 2, l, s)
            && SameResults(m, ins, leave, leave + RETURN_STEPS)
  {
    hide OnStack, SameResults, Does, DoesOne, PrintInt, State, Visible, HasEnergy, Holds, SameStack;
    EntersCall(m, ins, k, pc, callee, body, exit, l, s);
    DoesBody(m, ins, k, pc, callee, body, exit, l, s);
    NestedCallsReturn(m, ins, k + CALL_STEPS, callee + 2, body, exit, l, s - 1);
    var leave := k + CALL_STEPS + Steps(body);
    TopStays(m, ins, k + CALL_STEPS, leave, s - 1, callee + 2, exit, l);
    LeavesCall(m, ins, leave, exit, l, s - 1, pc + 2);
  }

  lemma TopStays(m: Machine, ins: seq<Inputs>, i: nat, j: nat, s: int, pc: int, exit: int, l: Layout)
    requires Valid(m) && i <= |ins| && j <= |ins| && OnStack(m, ins, i, pc, l, s) && OnStack(m, ins, j, exit, l, s)
    requires SameStack(m, ins, i, j, s) && 0 <= s < |m.cells|
    ensures |Visible(State(m, ins, i))| == |Visible(State(m, ins, j))| == |m.cells|
    ensures Visible(State(m, ins, j))[s] == Visible(State(m, ins, i))[s]
  {
    hide Poised, Linked, PrintInt;
  }

  lemma StackThrough(m: Machine, ins: seq<Inputs>, i: nat, j: nat, k: nat, n: nat, s: int)
    requires Valid(m) && i <= |ins| && j <= |ins| && k <= |ins| && n <= |ins|
    requires SameStack(m, ins, i, j, s) && SameStack(m, ins, j, k, s - 1) && SameStack(m, ins, k, n, s)
    ensures SameStack(m, ins, i, n, s)
  {
    hide State, Visible;
  }
}
