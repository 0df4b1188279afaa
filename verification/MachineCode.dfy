/** Machine code as text: the instruction lines of firmware images and boot blocks, and the
    effect of the short instruction sequences they are made of. */
module MachineCode {
  import opened Wrappers
  import opened Text
  import opened Hardware
  import opened Runs
  import opened Stepping
  import E = Encoding

  function OperandText(o: Operand): string {
    match o
    case Direct(a) => PrintInt(a)
    case Indirect(p) => "*" + PrintInt(p)
    case _ => ""
  }

  /** The instruction part of a line: `0`, `1 source destination` or `code target`. */
  function TextOf(i: Instr): string {
    match i
    case Exec => "0"
    case Copy(s, d) => "1 " + OperandText(s) + " " + OperandText(d)
    case Jump(c, t) => PrintInt(E.JumpCode(c)) + " " + OperandText(t)
    case _ => ""
  }

  predicate IsAddress(o: Operand) {
    (o.Direct? && InInt(o.addr)) || (o.Indirect? && InInt(o.ptr))
  }

  predicate Printable(i: Instr) {
    i.Exec? || (i.Copy? && IsAddress(i.src) && IsAddress(i.dst)) || (i.Jump? && IsAddress(i.target))
  }

  /** `text` is the instruction followed by nothing or by a blank and any comment. */
  ghost predicate IsLine(text: string, i: Instr) {
    Printable(i) && exists note :: E.IsSuffix(note) && text == TextOf(i) + note
  }

  ghost predicate Line(v: seq<string>, pc: int, i: Instr) {
    0 <= pc < |v| && IsLine(v[pc], i)
  }

  /** Without a comment an instruction's text is a line. */
  lemma TextIsLine(i: Instr)
    requires Printable(i)
    ensures IsLine(TextOf(i), i)
  {
    hide TextOf;
    assert E.IsSuffix("") && TextOf(i) == TextOf(i) + "";
  }

  function PrefixOf(o: Operand): char {
    if o.Indirect? then '*' else '_'
  }

  function NumberOf(o: Operand): int {
    match o case Direct(a) => a case Indirect(p) => p case _ => 0
  }

  lemma OperandTextIs(o: Operand)
    requires IsAddress(o)
    ensures OperandText(o) == E.Pre(PrefixOf(o)) + PrintInt(NumberOf(o))
    ensures E.Parsed(PrefixOf(o), PrintInt(NumberOf(o))) == o && E.NumberText(PrintInt(NumberOf(o)))
  {
    hide PrintInt, E.NumberText, Stoi, E.Parsed;
    E.ParsedAddress(PrefixOf(o), NumberOf(o));
  }

  lemma CopyLineDecodes(s: Operand, d: Operand, note: string)
    requires IsAddress(s) && IsAddress(d) && E.IsSuffix(note)
    ensures Decode(TextOf(Copy(s, d)) + note) == Copy(s, d)
  {
    hide Decode, PrintInt, E.NumberText, E.IsSuffix, E.Parsed, OperandText, Stoi, E.Pre;
    OperandTextIs(s);
    OperandTextIs(d);
    E.DecodeCopyText(PrefixOf(s), PrintInt(NumberOf(s)), PrefixOf(d), PrintInt(NumberOf(d)), note);
    var a, b := E.Pre(PrefixOf(s)), PrintInt(NumberOf(s));
    var p, q := E.Pre(PrefixOf(d)), PrintInt(NumberOf(d));
    assert "1 " + (a + b) + " " + (p + q) + note == "1 " + a + b + " " + p + q + note;
  }

  lemma JumpLineDecodes(c: Condition, t: Operand, note: string)
    requires IsAddress(t) && E.IsSuffix(note)
    ensures Decode(TextOf(Jump(c, t)) + note) == Jump(c, t)
  {
    hide Decode, PrintInt, E.NumberText, E.IsSuffix, E.Parsed, OperandText, Stoi, E.Pre, E.JumpCode;
    OperandTextIs(t);
    E.DecodeJumpText(c, PrefixOf(t), PrintInt(NumberOf(t)), note);
    var k, p, n := PrintInt(E.JumpCode(c)), E.Pre(PrefixOf(t)), PrintInt(NumberOf(t));
    assert k + " " + (p + n) + note == k + " " + p + n + note;
  }

  lemma ExecText()
    ensures TextOf(Exec) == "0"
  {
  }

  /** The CPU decodes an instruction line to the instruction it was written for. */
  lemma LineDecodes(text: string, i: Instr)
    requires IsLine(text, i)
    ensures Decode(text) == i
  {
    hide Decode, TextOf, E.IsSuffix;
    var note :| E.IsSuffix(note) && text == TextOf(i) + note;
    if i.Copy? {
      CopyLineDecodes(i.src, i.dst, note);
    } else if i.Jump? {
      JumpLineDecodes(i.cond, i.target, note);
    } else {
      ExecText();
      E.DecodeExecText(note);
    }
  }

  lemma LinesDecode(v: Cells)
    ensures forall pc, i :: Line(v, pc, i) ==> Decode(v[pc]) == i
  {
    hide Decode, IsLine;
    forall pc, i | Line(v, pc, i)
      ensures Decode(v[pc]) == i
    {
      LineDecodes(v[pc], i);
    }
  }

  predicate OpIsText(text: string, op: int) {
    text != "" && Stoi(text) == Some(op)
  }

  lemma OpTextIs(op: int)
    requires InInt(op)
    ensures OpIsText(PrintInt(op), op)
  {
    StoiPrint(op);
  }

  lemma CodeTexts()
    ensures OpIsText("0", OP_ADD) && OpIsText("2", OP_INCR) && OpIsText("3", OP_DECR) && OpIsText("7", OP_IS_NUM)
            && OpIsText("8", OP_CMP_EQ)
    ensures OpIsText("10", OP_CMP_LT) && OpIsText("11", OP_CMP_LE) && OpIsText("19", OP_DISPLAY)
            && OpIsText("20", OP_DISPLAY_LN)
    ensures OpIsText("21", OP_READ_BLOCK) && OpIsText("24", OP_RENDER_BITMAP)
  {
    hide PrintInt, OpIsText;
    Numerals();
    OpTextIs(0);
    OpTextIs(2);
    OpTextIs(3);
    OpTextIs(7);
    OpTextIs(8);
    OpTextIs(10);
    OpTextIs(11);
    OpTextIs(19);
    OpTextIs(20);
    OpTextIs(21);
    OpTextIs(24);
  }

  lemma Numerals()
    ensures PrintInt(0) == "0" && PrintInt(2) == "2" && PrintInt(3) == "3" && PrintInt(7) == "7" && PrintInt(8) == "8"
    ensures PrintInt(10) == "10" && PrintInt(11) == "11" && PrintInt(19) == "19" && PrintInt(20) == "20"
    ensures PrintInt(21) == "21" && PrintInt(24) == "24"
  {
    assert PrintNat(1) == "1" && PrintNat(2) == "2";
  }

  // ---- What the computing operations give ----

  lemma IncreaseOf(n: int, input: Inputs)
    requires InInt(n)
    ensures forall b, c, d :: Compute(OP_INCR, PrintInt(n), b, c, d, input) == ResultOf(PrintInt(n + 1))
  {
    StoiPrint(n);
    PrintChars(n);
  }

  lemma DecreaseOf(n: int, input: Inputs)
    requires InInt(n)
    ensures forall b, c, d :: Compute(OP_DECR, PrintInt(n), b, c, d, input) == ResultOf(PrintInt(n - 1))
  {
    StoiPrint(n);
    PrintChars(n);
  }

  lemma CompareOf(a: int, b: int, input: Inputs)
    requires InInt(a) && InInt(b)
    ensures forall c, d :: Compute(OP_CMP_LE, PrintInt(a), PrintInt(b), c, d, input) == FlagOf(a <= b)
  {
    StoiPrint(a);
    StoiPrint(b);
    PrintChars(a);
    PrintChars(b);
  }

  lemma SumOf(a: int, b: int, input: Inputs)
    requires InInt(a) && InInt(b)
    ensures forall c, d :: Compute(OP_ADD, PrintInt(a), PrintInt(b), c, d, input) == ResultOf(PrintInt(a + b))
  {
    hide PrintInt, Stoi;
    StoiPrint(a);
    StoiPrint(b);
    PrintChars(a);
    PrintChars(b);
  }

  lemma IsNumOf(n: int, input: Inputs)
    ensures forall b, c, d :: Compute(OP_IS_NUM, PrintInt(n), b, c, d, input) == FlagOf(true)
  {
    PrintedIsNum(n);
  }

  /** A run from one of its states to a later one. */
  lemma SplitRun(m: Machine, ins: seq<Inputs>, i: nat, part: seq<Inputs>)
    requires Valid(m) && i <= |ins| && part <= ins[i..]
    ensures Valid(State(m, ins, i)) && Run(State(m, ins, i), part) == State(m, ins, i + |part|)
  {
    hide Run;
    assert ins[..i] + part == ins[..i + |part|];
    RunAppend(m, ins[..i], part);
  }

  /** Registers A, B, OP, RES, BOOL_RES, ERROR and the energy counter. */
  predicate Scratch(i: int) {
    i in {REG_A, REG_B, REG_OP, REG_RES, REG_BOOL, REG_ERROR, SYS_ENERGY}
  }

  // ---- Single instructions at step k of a run ----

  type Disks = map<string, seq<string>>

  function Cp(s: int, d: int): Instr { Copy(Direct(s), Direct(d)) }

  lemma CopyAt(m: Machine, ins: seq<Inputs>, k: nat, pc: int, v: Cells, disks: Disks, s: int, d: int)
    requires Valid(m) && k < |ins| && Poised(State(m, ins, k), pc, v, disks)
    requires Holds(v, pc, Cp(s, d)) && Plain(v, s) && Plain(v, d)
    ensures Poised(State(m, ins, k + 1), pc + 1, v[d := v[s]], disks)
  {
    hide Decode, Step, Poised, State;
    RunStates(m, ins);
    CopyStep(State(m, ins, k), ins[k], pc, v, disks, s, d);
  }

  lemma JumpAt(m: Machine, ins: seq<Inputs>, k: nat, pc: int, v: Cells, disks: Disks, cond: Condition, target: int)
    requires Valid(m) && k < |ins| && Poised(State(m, ins, k), pc, v, disks)
    requires Holds(v, pc, Jump(cond, Direct(target))) && InInt(target) && InInt(target - 1)
    ensures |v| > MIN_RAM_SIZE
    ensures Poised(State(m, ins, k + 1), if TakenOn(v, cond) then target else pc + 1, v, disks)
  {
    hide Decode, Step, State;
    RunStates(m, ins);
    JumpStep(State(m, ins, k), ins[k], pc, v, disks, cond, target);
  }

  lemma EnergyAfter(v: Cells, e: int, op: int)
    requires |v| > SYS_ENERGY && InInt(e + EnergyCost(op))
    ensures EnergyIn(Charged(v, e, op)) == Some(e + EnergyCost(op))
  {
    hide Stoi, PrintInt;
    StoiPrint(e + EnergyCost(op));
  }

  /** Only scratch registers differ. */
  ghost predicate Kept(v: Cells, w: Cells) {
    |w| == |v| && forall i :: 0 <= i < |v| && !Scratch(i) ==> w[i] == v[i]
  }

  /** A computing operation: load the code and execute. */
  lemma ComputeAt(m: Machine, ins: seq<Inputs>, k: nat, pc: int, v: Cells, disks: Disks, z: int, op: int, e: int,
                  alu: Alu)
      returns (w: Cells)
    requires Valid(m) && k + 2 <= |ins| && Poised(State(m, ins, k), pc, v, disks) && |v| > MIN_RAM_SIZE
    requires pc > 40 && Holds(v, pc, Cp(z, REG_OP)) && Holds(v, pc + 1, Exec) && Plain(v, z)
    requires OpIsText(v[z], op) && IsComputing(op) && EnergyIn(v) == Some(e) && InInt(e + EnergyCost(op))
    requires alu == Compute(op, v[REG_A], v[REG_B], v[REG_C], v[REG_D], ins[k + 1])
    requires alu.signal.Done? && alu.err.None?
    ensures Poised(State(m, ins, k + 2), pc + 2, w, disks) && Kept(v, w)
    ensures EnergyIn(w) == Some(e + EnergyCost(op))
    ensures w[REG_A] == v[REG_A] && w[REG_B] == v[REG_B] && w[REG_OP] == v[z]
            && (alu.res.Some? ==> w[REG_RES] == alu.res.value) && (alu.flag.Some? ==> w[REG_BOOL] == alu.flag.value)
  {
    hide Decode, Poised, State, Compute, Step, EnergyCost, Stoi;
    CopyAt(m, ins, k, pc, v, disks, z, REG_OP);
    var u := v[REG_OP := v[z]];
    RunStates(m, ins);
    ComputeStep(State(m, ins, k + 1), ins[k + 1], pc + 1, u, disks, op, e, alu);
    EnergyAfter(u, e, op);
    w := Stored(Stored(Charged(u, e, op), REG_RES, alu.res), REG_BOOL, alu.flag);
  }

  lemma HeldThrough(v: Cells, w: Cells, pc: int, instr: Instr)
    requires Holds(v, pc, instr) && |w| == |v| && (0 <= pc < |v| ==> w[pc] == v[pc])
    ensures Holds(w, pc, instr)
  {
  }
}
