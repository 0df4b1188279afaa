/** The emulated computer as a value: RAM with its two modes, the CPU instructions and
    operations, traps, system calls, the tick timer and the disks. `Cpu.dfy` holds the classes
    that update their fields in place and are proved against these functions. */
module Hardware {
  import opened Wrappers
  import opened Text
  import opened Columns

  // Memory-mapped registers. Cells 1-11 belong to the running user program.
  const REG_A := 1
  const REG_B := 2
  const REG_C := 3
  const REG_D := 4
  const REG_E := 5
  const REG_F := 6
  const REG_OP := 7
  const REG_RES := 8
  const REG_BOOL := 9
  const REG_ERROR := 10
  const LAST_KEY := 11
  const USER_SPACE_END := 11
  const KEYBOARD_BUFFER := 14
  const DISPLAY_BACKGROUND := 15
  const PROGRAM_COUNTER := 16
  const SYS_ENERGY := 17
  const FREE_MEMORY_END := 18
  const PROC_START := 21
  const PROC_END := 22
  const SYSCALL_HANDLER := 23
  const INTERRUPT_HANDLER := 25
  const INTERRUPT_DATA := 26
  const HW_TIMER := 27
  const KERNEL_START := 41
  const USER_SPACE_START := 12
  const MIN_RAM_SIZE := 100

  // Operation codes.
  const OP_ADD := 0
  const OP_SUB := 1
  const OP_INCR := 2
  const OP_DECR := 3
  const OP_DIV := 4
  const OP_MOD := 5
  const OP_MUL := 6
  const OP_IS_NUM := 7
  const OP_CMP_EQ := 8
  const OP_CMP_NEQ := 9
  const OP_CMP_LT := 10
  const OP_CMP_LE := 11
  const OP_CONTAINS := 12
  const OP_GET_LENGTH := 13
  const OP_STARTS_WITH := 14
  const OP_GET_COLUMN := 15
  const OP_REPLACE_COLUMN := 16
  const OP_CONCAT_WITH := 17
  const OP_READ_INPUT := 18
  const OP_DISPLAY := 19
  const OP_DISPLAY_LN := 20
  const OP_READ_BLOCK := 21
  const OP_WRITE_BLOCK := 22
  const OP_SET_BACKGROUND_COLOR := 23
  const OP_RENDER_BITMAP := 24
  const OP_SYSCALL := 25
  const OP_SYSRETURN := 26
  const OP_ENCRYPT_DATA := 27
  const OP_DECRYPT_DATA := 28
  const OP_NOP := 29
  const OP_HALT := 30

  /** `Halted` is a cleared running flag, `Crashed` an exception that leaves the step, and
      `Undefined` an access outside the RAM vector or a division the language does not define. */
  datatype Status = Running | Halted | Crashed | Undefined

  datatype Machine = Machine(cells: seq<string>, kernel: bool, status: Status, disks: map<string, seq<string>>)

  /** What a step takes from outside: a polled key (0 for none), a line of input (`None` at end
      of file), the code of a background colour, and the results of the floating-point unit
      (`None` where it throws). */
  datatype Inputs = Inputs(key: int, line: Option<string>, background: string,
                           floatText: Option<string>, floatTest: Option<bool>)

  /** How an instruction ends: normally, with a RAM access violation, with a CPU exception, with
      any other exception, or outside the RAM vector. */
  datatype Signal = Done | MemoryFault | CpuFault | Thrown | Wild

  datatype Outcome = Outcome(m: Machine, signal: Signal)

  predicate Valid(m: Machine) {
    |m.cells| > MIN_RAM_SIZE
  }

  function Size(m: Machine): int {
    |m.cells| - 1
  }

  function Put(m: Machine, i: int, v: string): (r: Machine)
    requires 0 <= i < |m.cells|
    ensures |r.cells| == |m.cells|
  {
    m.(cells := m.cells[i := v])
  }

  // ---- RAM access ----

  function BoundOf(cell: string): int {
    if cell == "" || cell == "0" then 0
    else match Stoi(cell) case None => 0 case Some(n) => n
  }

  function ProcStart(m: Machine): int
    requires Valid(m)
  {
    BoundOf(m.cells[PROC_START])
  }

  function ProcEnd(m: Machine): int
    requires Valid(m)
  {
    BoundOf(m.cells[PROC_END])
  }

  datatype Place = At(index: nat) | Refused | Outside

  /** The cell an address denotes: direct in kernel mode and for user registers, shifted by the
      process start and checked against the process end otherwise. */
  function Locate(m: Machine, addr: int): (p: Place)
    requires Valid(m)
    ensures p.At? ==> p.index < |m.cells|
  {
    if m.kernel then
      if 1 <= addr <= Size(m) then At(addr) else Refused
    else if 1 <= addr <= USER_SPACE_END then At(addr)
    else
      var t := addr + ProcStart(m);
      if t > ProcEnd(m) then Refused
      else if 0 <= t < |m.cells| then At(t)
      else Outside
  }

  datatype ReadResult = ReadResult(value: string, signal: Signal)

  function Read(m: Machine, addr: int): ReadResult
    requires Valid(m)
  {
    match Locate(m, addr)
    case At(i) => ReadResult(m.cells[i], Done)
    case Refused => ReadResult("", MemoryFault)
    case Outside => ReadResult("", Wild)
  }

  function Write(m: Machine, addr: int, v: string): (o: Outcome)
    requires Valid(m)
    ensures |o.m.cells| == |m.cells|
  {
    match Locate(m, addr)
    case At(i) => Outcome(Put(m, i, v), Done)
    case Refused => Outcome(m, MemoryFault)
    case Outside => Outcome(m, Wild)
  }

  // ---- Decoding ----

  datatype Operand = Direct(addr: int) | Indirect(ptr: int) | Literal(text: string) | Junk | JunkIndirect | NoOperand

  datatype Condition = Always | IfTrue | IfFalse | IfError

  datatype Instr =
    | Exec
    | Copy(src: Operand, dst: Operand)
    | Jump(cond: Condition, target: Operand)
    | Debug
    | DebugMark
    | BadCode

  function ParseOperand(s: string): Operand {
    if s == "" then NoOperand
    else if s[0] == '*' then (match Stoi(s[1..]) case None => JunkIndirect case Some(n) => Indirect(n))
    else if s[0] == '@' then Literal(s[1..])
    else match Stoi(s) case None => Junk case Some(n) => Direct(n)
  }

  function FirstBlank(s: string): (n: nat)
    ensures n <= |s| && (n < |s| ==> s[n] == ' ')
    ensures forall i :: 0 <= i < n ==> s[i] != ' '
  {
    if s == "" || s[0] == ' ' then 0 else 1 + FirstBlank(s[1..])
  }

  /** The text behind the first blank, or the whole text when it holds none. */
  function AfterFirstBlank(s: string): string {
    var k := FirstBlank(s);
    if k < |s| then s[k + 1..] else s
  }

  function DecodeCopy(rest: string): Instr {
    match ReadToken(rest)
    case None => BadCode
    case Some(first) =>
      match ReadToken(first.1)
      case None => BadCode
      case Some(second) => Copy(ParseOperand(first.0), ParseOperand(second.0))
  }

  function Decode(line: string): Instr {
    if StartsWith(line, "DEBUG_ON") || StartsWith(line, "DEBUG_OFF") then DebugMark
    else
      match ReadInt(line)
      case None => BadCode
      case Some(code) =>
        if code.0 == 0 then Exec
        else if code.0 == 1 then DecodeCopy(code.1)
        else if code.0 == 2 then Jump(Always, ParseOperand(AfterFirstBlank(line)))
        else if code.0 == 3 then Jump(IfTrue, ParseOperand(AfterFirstBlank(line)))
        else if code.0 == 4 then Jump(IfFalse, ParseOperand(AfterFirstBlank(line)))
        else if code.0 == 5 then Jump(IfError, ParseOperand(AfterFirstBlank(line)))
        else if code.0 == 6 then Debug
        else BadCode
  }

  // ---- Copy and jumps ----

  datatype Resolved = Resolved(addr: Option<int>, signal: Signal)

  /** The address an operand stands for; a missing address is one that `std::stoi` will refuse. */
  function Pointer(m: Machine, op: Operand): Resolved
    requires Valid(m)
  {
    match op
    case Direct(a) => Resolved(Some(a), Done)
    case Indirect(p) => var r := Read(m, p); Resolved(Stoi(r.value), r.signal)
    case JunkIndirect => Resolved(None, Thrown)
    case _ => Resolved(None, Done)
  }

  function ExecCopy(m: Machine, src: Operand, dst: Operand): (o: Outcome)
    requires Valid(m)
    ensures |o.m.cells| == |m.cells|
  {
    var s := Pointer(m, src);
    if s.signal != Done then Outcome(m, s.signal)
    else
      var d := Pointer(m, dst);
      if d.signal != Done then Outcome(m, d.signal)
      else if d.addr.None? then Outcome(m, Thrown)
      else if src.Literal? then Write(m, d.addr.value, src.text)
      else if s.addr.None? then Outcome(m, Thrown)
      else
        var r := Read(m, s.addr.value);
        if r.signal != Done then Outcome(m, r.signal) else Write(m, d.addr.value, r.value)
  }

  function SetPc(m: Machine, pc: int): (r: Machine)
    requires Valid(m)
    ensures |r.cells| == |m.cells|
  {
    Put(m, PROGRAM_COUNTER, PrintInt(pc))
  }

  predicate Taken(m: Machine, cond: Condition)
    requires Valid(m)
  {
    match cond
    case Always => true
    case IfTrue => m.cells[REG_BOOL] == "1"
    case IfFalse => m.cells[REG_BOOL] == "0"
    case IfError => m.cells[REG_ERROR] != ""
  }

  /** The target is resolved even when the jump is not taken. */
  function ExecJump(m: Machine, cond: Condition, target: Operand): (o: Outcome)
    requires Valid(m)
    ensures |o.m.cells| == |m.cells|
  {
    if target.NoOperand? then Outcome(m, CpuFault)
    else
      var t := Pointer(m, target);
      if t.signal != Done then Outcome(m, t.signal)
      else if t.addr.None? then Outcome(m, Thrown)
      else Outcome(if Taken(m, cond) then SetPc(m, t.addr.value - 1) else m, Done)
  }

  // ---- Operations ----

  predicate IsPrivileged(op: int) {
    op >= OP_READ_INPUT && op != OP_SYSCALL
  }

  function EnergyCost(op: int): nat {
    if op == OP_DIV || op == OP_MOD || op == OP_CONTAINS || op == OP_STARTS_WITH then 2
    else if OP_GET_COLUMN <= op <= OP_CONCAT_WITH || op == OP_SET_BACKGROUND_COLOR then 3
    else if op == OP_READ_INPUT || op == OP_READ_BLOCK || op == OP_WRITE_BLOCK then 10
    else if op == OP_DISPLAY || op == OP_DISPLAY_LN || op == OP_SYSCALL || op == OP_SYSRETURN then 5
    else if op == OP_RENDER_BITMAP then 20
    else if op == OP_ENCRYPT_DATA || op == OP_DECRYPT_DATA then 15
    else if op == OP_HALT then 0
    else 1
  }

  predicate IsFloat(s: string) {
    '.' in s
  }

  function TruncatedDiv(a: int, b: int): int
    requires b != 0
  {
    var q := (if a < 0 then -a else a) / (if b < 0 then -b else b);
    if (a < 0) == (b < 0) then q else -q
  }

  predicate DigitsWithDot(s: string, dot: bool) {
    s == "" || (IsDigit(s[0]) && DigitsWithDot(s[1..], dot)) || (s[0] == '.' && !dot && DigitsWithDot(s[1..], true))
  }

  /** The pattern `-?\d*\.?\d+`: at most one dot, and a digit at the end. */
  predicate IsNum(s: string) {
    var u := if s != "" && s[0] == '-' then s[1..] else s;
    u != "" && IsDigit(u[|u| - 1]) && DigitsWithDot(u, false)
  }

  lemma {:induction false} DigitsAreNumber(s: string, dot: bool)
    requires AllDigits(s)
    ensures DigitsWithDot(s, dot)
  {
    if s != "" {
      DigitsAreNumber(s[1..], dot);
    }
  }

  /** A printed number passes OP_IS_NUM. */
  lemma PrintedIsNum(n: int)
    ensures IsNum(PrintInt(n))
  {
    var u := PrintNat(if n < 0 then -n else n);
    DigitsAreNumber(u, false);
    assert n < 0 ==> PrintInt(n)[1..] == u;
  }

  /** What a computing operation writes to RES, BOOL_RES and ERROR. */
  datatype Alu = Alu(res: Option<string>, flag: Option<string>, err: Option<string>, signal: Signal)

  function ResultOf(text: string): Alu { Alu(Some(text), None, None, Done) }
  function FlagOf(b: bool): Alu { Alu(None, Some(if b then "1" else "0"), None, Done) }
  function ErrorOf(text: string): Alu { Alu(None, None, Some(text), Done) }
  function AluSignal(s: Signal): Alu { Alu(None, None, None, s) }

  function FloatResult(input: Inputs): Alu {
    match input.floatText case None => AluSignal(Thrown) case Some(t) => ResultOf(t)
  }

  function FloatFlag(input: Inputs): Alu {
    match input.floatTest case None => AluSignal(Thrown) case Some(b) => FlagOf(b)
  }

  function Arithmetic(op: int, a: string, b: string, input: Inputs): Alu {
    if IsFloat(a) || IsFloat(b) then FloatResult(input)
    else
      match (Stoi(a), Stoi(b))
      case (Some(x), Some(y)) =>
        if op == OP_ADD then ResultOf(PrintInt(x + y))
        else if op == OP_SUB then ResultOf(PrintInt(x - y))
        else if op == OP_MUL then ResultOf(PrintInt(x * y))
        else if y == 0 then AluSignal(Wild)
        else ResultOf(PrintInt(TruncatedDiv(x, y)))
      case _ => AluSignal(Thrown)
  }

  function Increase(a: string, amount: int, input: Inputs): Alu {
    if IsFloat(a) then FloatResult(input)
    else match Stoi(a) case None => AluSignal(Thrown) case Some(x) => ResultOf(PrintInt(x + amount))
  }

  function Modulo(a: string, b: string): Alu {
    if b == "0" then ErrorOf("Modulo by zero")
    else
      match (Stoi(a), Stoi(b))
      case (Some(x), Some(y)) =>
        if y == 0 then AluSignal(Wild) else ResultOf(PrintInt(x - y * TruncatedDiv(x, y)))
      case _ => AluSignal(Thrown)
  }

  function Compare(op: int, a: string, b: string, input: Inputs): Alu {
    if op == OP_CMP_EQ then FlagOf(a == b)
    else if op == OP_CMP_NEQ then FlagOf(a != b)
    else if IsFloat(a) || IsFloat(b) then FloatFlag(input)
    else
      match (Stoi(a), Stoi(b))
      case (Some(x), Some(y)) => FlagOf(if op == OP_CMP_LT then x < y else x <= y)
      case _ => AluSignal(Thrown)
  }

  function StringOp(op: int, a: string, b: string, c: string, d: string): Alu {
    if op == OP_CONTAINS then
      (match IndexOf(a, b)
       case None => Alu(Some(""), Some("0"), None, Done)
       case Some(k) => Alu(Some(PrintInt(k + 1)), Some("1"), None, Done))
    else if op == OP_GET_LENGTH then ResultOf(PrintInt(|a|))
    else if op == OP_STARTS_WITH then
      if StartsWith(a, b) then Alu(Some(a[|b|..]), Some("1"), None, Done) else Alu(Some(""), Some("0"), None, Done)
    else if op == OP_CONCAT_WITH then ResultOf(a + c + b)
    else
      match Stoi(b)
      case None => AluSignal(Thrown)
      case Some(k) => ResultOf(if op == OP_GET_COLUMN then GetColumn(a, k, c) else ReplaceColumn(a, k, c, d))
  }

  /** The computing operations: arithmetic, comparisons, strings and the two placeholders. */
  function Compute(op: int, a: string, b: string, c: string, d: string, input: Inputs): Alu {
    if op == OP_ADD || op == OP_SUB || op == OP_MUL then Arithmetic(op, a, b, input)
    else if op == OP_INCR then Increase(a, 1, input)
    else if op == OP_DECR then Increase(a, -1, input)
    else if op == OP_DIV then
      if b == "0" || b == "0.0" then ErrorOf("Division by zero") else Arithmetic(op, a, b, input)
    else if op == OP_MOD then Modulo(a, b)
    else if op == OP_IS_NUM then FlagOf(IsNum(a))
    else if OP_CMP_EQ <= op <= OP_CMP_LE then Compare(op, a, b, input)
    else if OP_CONTAINS <= op <= OP_CONCAT_WITH then StringOp(op, a, b, c, d)
    else if op == OP_ENCRYPT_DATA || op == OP_DECRYPT_DATA then ResultOf(a)
    else AluSignal(CpuFault)
  }

  predicate IsComputing(op: int) {
    OP_ADD <= op <= OP_CONCAT_WITH || op == OP_ENCRYPT_DATA || op == OP_DECRYPT_DATA
  }

  function Store(m: Machine, i: int, v: Option<string>): (r: Machine)
    requires Valid(m) && 0 <= i < |m.cells|
    ensures Valid(r)
  {
    match v case None => m case Some(t) => Put(m, i, t)
  }

  function ApplyAlu(m: Machine, alu: Alu): (o: Outcome)
    requires Valid(m)
    ensures |o.m.cells| == |m.cells|
  {
    Outcome(Store(Store(Store(m, REG_RES, alu.res), REG_BOOL, alu.flag), REG_ERROR, alu.err), alu.signal)
  }

  // ---- Disks ----

  datatype BlockRead = Block(text: string) | NoBlock | BadHeader

  /** Block n is line n of the disk file; line 1 holds the block count. */
  function ReadBlock(disks: map<string, seq<string>>, name: string, n: int): BlockRead {
    if name !in disks || n < 1 || |disks[name]| == 0 then NoBlock
    else
      match Stoi(disks[name][0])
      case None => BadHeader
      case Some(count) =>
        if n > count || n > |disks[name]| then NoBlock else Block(disks[name][n - 1])
  }

  function PadTo(lines: seq<string>, n: nat): (r: seq<string>)
    ensures |r| == if n > |lines| then n else |lines|
    ensures forall i :: 0 <= i < |r| ==> r[i] == if i < |lines| then lines[i] else ""
  {
    if n > |lines| then lines + seq(n - |lines|, i => "") else lines
  }

  datatype BlockWrite = Written(disks: map<string, seq<string>>) | NotWritten | BadDisk

  /** Block 1 and the last block cannot be written; a short file is padded with empty lines. */
  function WriteBlock(disks: map<string, seq<string>>, name: string, n: int, data: string): BlockWrite {
    if name !in disks || |disks[name]| == 0 then NotWritten
    else
      match Stoi(disks[name][0])
      case None => BadDisk
      case Some(count) =>
        if n < 2 || n >= count then NotWritten
        else Written(disks[name := PadTo(disks[name], n)[n - 1 := data]])
  }

  function ExecReadBlock(m: Machine, name: string, number: string): (o: Outcome)
    requires Valid(m)
    ensures |o.m.cells| == |m.cells|
  {
    match Stoi(number)
    case None => Outcome(m, Thrown)
    case Some(n) =>
      match ReadBlock(m.disks, name, n)
      case Block(text) => Outcome(Put(m, REG_RES, text), Done)
      case NoBlock => Outcome(Put(m, REG_ERROR, "Failed to read block"), Done)
      case BadHeader => Outcome(m, Thrown)
  }

  function ExecWriteBlock(m: Machine, name: string, number: string, data: string): (o: Outcome)
    requires Valid(m)
    ensures |o.m.cells| == |m.cells|
  {
    match Stoi(number)
    case None => Outcome(m, Thrown)
    case Some(n) =>
      match WriteBlock(m.disks, name, n, data)
      case Written(disks) => Outcome(m.(disks := disks), Done)
      case NotWritten => Outcome(Put(m, REG_ERROR, "Failed to write block"), Done)
      case BadDisk => Outcome(m, Thrown)
  }

  /** Drawing reads the cells of the range; only its failures matter here. */
  function ExecRenderBitmap(m: Machine, first: string, last: string): (o: Outcome)
    requires Valid(m)
    ensures |o.m.cells| == |m.cells|
  {
    var x, y := m.cells[REG_C], m.cells[REG_D];
    match (Stoi(first), Stoi(last))
    case (Some(s), Some(e)) =>
      if (x != "" && Stoi(x).None?) || (y != "" && Stoi(y).None?) || e < s then Outcome(m, Thrown)
      else if s < e && (s < 1 || e - 1 > Size(m)) then Outcome(m, MemoryFault)
      else Outcome(m, Done)
    case _ => Outcome(m, Thrown)
  }

  // ---- System calls ----

  /** Copies registers i..11 to the backup area of the process, stopping at the first address
      outside RAM. */
  function BackupRegisters(m: Machine, offset: int, i: int): (o: Outcome)
    requires Valid(m) && 1 <= i <= USER_SPACE_END + 1
    ensures |o.m.cells| == |m.cells|
    decreases USER_SPACE_END + 1 - i
  {
    if i > USER_SPACE_END then Outcome(m, Done)
    else if 1 <= i + offset <= Size(m) then BackupRegisters(Put(m, i + offset, m.cells[i]), offset, i + 1)
    else Outcome(m, MemoryFault)
  }

  function RestoreRegisters(m: Machine, offset: int, i: int): (o: Outcome)
    requires Valid(m) && 1 <= i <= USER_SPACE_END + 1
    ensures |o.m.cells| == |m.cells|
    decreases USER_SPACE_END + 1 - i
  {
    if i > USER_SPACE_END then Outcome(m, Done)
    else if 1 <= i + offset <= Size(m) then RestoreRegisters(Put(m, i, m.cells[i + offset]), offset, i + 1)
    else Outcome(m, MemoryFault)
  }

  function HandlerAddress(cell: string): Option<int> {
    if cell == "" || cell == "0" then Some(0) else Stoi(cell)
  }

  /** The record that a kernel entry leaves: kind, program counter, ignore-result flag. */
  function InterruptRecord(kind: string, pc: int, flag: string): string {
    kind + " " + PrintInt(pc) + " " + flag
  }

  /** Leaves user mode: note the program counter and continue at the handler. */
  function EnterHandler(m: Machine, kind: string, flag: string, handlerCell: int): (o: Outcome)
    requires Valid(m) && 0 <= handlerCell < INTERRUPT_DATA
    ensures |o.m.cells| == |m.cells|
  {
    match Stoi(m.cells[PROGRAM_COUNTER])
    case None => Outcome(m, Thrown)
    case Some(pc) =>
      var noted := Put(m, INTERRUPT_DATA, InterruptRecord(kind, pc, flag)).(kernel := true);
      match HandlerAddress(m.cells[handlerCell])
      case None => Outcome(noted, Thrown)
      case Some(h) => Outcome(SetPc(noted, h - 1), Done)
  }

  function SaveUser(m: Machine): (o: Outcome)
    requires Valid(m)
    ensures |o.m.cells| == |m.cells|
  {
    if m.cells[PROC_START] == "" || m.cells[PROC_START] == "0" then Outcome(m, Done)
    else
      match Stoi(m.cells[PROC_START])
      case None => Outcome(m, Thrown)
      case Some(offset) => BackupRegisters(m, offset, 1)
  }

  function LoadUser(m: Machine): (o: Outcome)
    requires Valid(m)
    ensures |o.m.cells| == |m.cells|
  {
    if m.cells[PROC_START] == "" || m.cells[PROC_START] == "0" then Outcome(m, Done)
    else
      match Stoi(m.cells[PROC_START])
      case None => Outcome(m, Thrown)
      case Some(offset) => RestoreRegisters(m, offset, 1)
  }

  function ExecSysCall(m: Machine): (o: Outcome)
    requires Valid(m)
    ensures |o.m.cells| == |m.cells|
  {
    var saved := SaveUser(m.(kernel := true));
    if saved.signal != Done then saved else EnterHandler(saved.m, "0", "0", SYSCALL_HANDLER)
  }

  function TokenOr(s: string): (string, string) {
    match ReadToken(s) case None => ("", "") case Some(r) => r
  }

  function ExecSysReturn(m: Machine, savedRes: string, savedErr: string): (o: Outcome)
    requires Valid(m)
    ensures |o.m.cells| == |m.cells|
  {
    var loaded := LoadUser(m);
    if loaded.signal != Done then loaded
    else
      var kind := TokenOr(loaded.m.cells[INTERRUPT_DATA]);
      var pc := TokenOr(kind.1);
      var flag := TokenOr(pc.1);
      var answered :=
        if flag.0 == "1" then loaded.m else Put(Put(loaded.m, REG_RES, savedRes), REG_ERROR, savedErr);
      Outcome(Put(Put(answered, PROGRAM_COUNTER, pc.0), INTERRUPT_DATA, "").(kernel := false), Done)
  }

  // ---- The operation dispatcher ----

  /** Operations that are neither computing nor plain output. */
  function ExecDevice(m: Machine, op: int, savedRes: string, savedErr: string, input: Inputs): (o: Outcome)
    requires Valid(m)
    ensures |o.m.cells| == |m.cells|
  {
    var a, b, c := m.cells[REG_A], m.cells[REG_B], m.cells[REG_C];
    if op == OP_READ_INPUT then
      (match input.line
       case None => Outcome(m.(status := Halted), Done)
       case Some(text) => Outcome(Put(m, KEYBOARD_BUFFER, text), Done))
    else if op == OP_DISPLAY || op == OP_DISPLAY_LN then Outcome(m, Done)
    else if op == OP_READ_BLOCK then ExecReadBlock(m, a, b)
    else if op == OP_WRITE_BLOCK then ExecWriteBlock(m, a, b, c)
    else if op == OP_SET_BACKGROUND_COLOR then Outcome(Put(m, DISPLAY_BACKGROUND, input.background), Done)
    else if op == OP_RENDER_BITMAP then ExecRenderBitmap(m, a, b)
    else if op == OP_SYSCALL then ExecSysCall(m)
    else if op == OP_SYSRETURN then ExecSysReturn(m, savedRes, savedErr)
    else if op == OP_NOP then Outcome(m, if a != "" && input.floatText.None? then Thrown else Done)
    else if op == OP_HALT then Outcome(m.(status := Halted), Done)
    else Outcome(m, CpuFault)
  }

  /** Energy is charged and ERROR cleared before an operation runs. */
  function Charge(m: Machine, energy: int, op: int): (r: Machine)
    requires Valid(m)
    ensures |r.cells| == |m.cells|
  {
    Put(Put(m, SYS_ENERGY, PrintInt(energy + EnergyCost(op))), REG_ERROR, "")
  }

  function EnergyOf(m: Machine): Option<int>
    requires Valid(m)
  {
    if m.cells[SYS_ENERGY] == "" then Some(0) else Stoi(m.cells[SYS_ENERGY])
  }

  function Perform(m: Machine, op: int, savedRes: string, savedErr: string, input: Inputs): (o: Outcome)
    requires Valid(m)
    ensures |o.m.cells| == |m.cells|
  {
    if IsComputing(op)
    then ApplyAlu(m, Compute(op, m.cells[REG_A], m.cells[REG_B], m.cells[REG_C], m.cells[REG_D], input))
    else ExecDevice(m, op, savedRes, savedErr, input)
  }

  function ExecOperation(m: Machine, input: Inputs): (o: Outcome)
    requires Valid(m)
    ensures |o.m.cells| == |m.cells|
  {
    if m.cells[REG_OP] == "" then Outcome(m, Done)
    else
      match Stoi(m.cells[REG_OP])
      case None => Outcome(m, Thrown)
      case Some(op) =>
        if !m.kernel && IsPrivileged(op) then Outcome(m, CpuFault)
        else
          match EnergyOf(m)
          case None => Outcome(m, Thrown)
          case Some(energy) =>
            Perform(Charge(m, energy, op), op, m.cells[REG_RES], m.cells[REG_ERROR], input)
  }

  function Execute(m: Machine, instr: Instr, input: Inputs): (o: Outcome)
    requires Valid(m)
    ensures |o.m.cells| == |m.cells|
  {
    match instr
    case Exec => ExecOperation(m, input)
    case Copy(src, dst) => ExecCopy(m, src, dst)
    case Jump(cond, target) => ExecJump(m, cond, target)
    case Debug => Outcome(m, Done)
    case DebugMark => Outcome(m, Done)
    case BadCode => Outcome(m, CpuFault)
  }

  // ---- Faults, timer, step ----

  function Finish(o: Outcome): Machine {
    match o.signal
    case Done => o.m
    case Wild => o.m.(status := Undefined)
    case _ => o.m.(status := Crashed)
  }

  /** A fault stops a kernel and turns into the exit system call of a user program. */
  function HandleFault(m: Machine, code: string, input: Inputs): (r: Machine)
    requires Valid(m)
    ensures |r.cells| == |m.cells|
  {
    if m.kernel then m.(status := Halted)
    else Finish(ExecOperation(Put(Put(Put(m, REG_A, code), REG_E, "0"), REG_OP, "25"), input))
  }

  function Settle(o: Outcome, input: Inputs): (r: Machine)
    requires Valid(o.m)
    ensures |r.cells| == |o.m.cells|
  {
    match o.signal
    case MemoryFault => HandleFault(o.m, "139", input)
    case CpuFault => HandleFault(o.m, "1", input)
    case _ => Finish(o)
  }

  function Poll(m: Machine, input: Inputs): (r: Machine)
    requires Valid(m)
    ensures |r.cells| == |m.cells|
  {
    if input.key != 0 then Put(m, LAST_KEY, PrintInt(input.key)) else m
  }

  /** Polls the keyboard, executes one decoded instruction and settles its outcome. */
  function ExecuteAndSettle(m: Machine, instr: Instr, input: Inputs): (r: Machine)
    requires Valid(m)
    ensures |r.cells| == |m.cells|
  {
    Settle(Execute(Poll(m, input), instr, input), input)
  }

  function Tick(m: Machine): (r: Machine)
    requires Valid(m)
    ensures |r.cells| == |m.cells|
  {
    match Stoi(m.cells[HW_TIMER])
    case None => m
    case Some(t) =>
      if t < 0 then m
      else if t > 0 then Put(m, HW_TIMER, PrintInt(t - 1))
      else Finish(EnterHandler(Put(m, HW_TIMER, "-1"), "1", "1", INTERRUPT_HANDLER))
  }

  function TimerPhase(m: Machine): (r: Machine)
    requires Valid(m)
    ensures |r.cells| == |m.cells|
  {
    if m.status.Running? && !m.kernel then Tick(m) else m
  }

  function Advance(m: Machine): (r: Machine)
    requires Valid(m)
    ensures |r.cells| == |m.cells|
  {
    match Stoi(m.cells[PROGRAM_COUNTER])
    case None => m
    case Some(pc) => SetPc(m, pc + 1)
  }

  /** The next instruction text: the program counter is incremented before the fetch. */
  function Fetch(m: Machine): ReadResult
    requires Valid(m)
  {
    match Stoi(m.cells[PROGRAM_COUNTER])
    case None => ReadResult("", Thrown)
    case Some(pc) => Read(Advance(m), pc + 1)
  }

  /** The part of a step before the timer check. */
  function Core(m: Machine, instr: Instr, input: Inputs): (r: Machine)
    requires Valid(m)
    ensures |r.cells| == |m.cells|
  {
    if instr.DebugMark? then Advance(m) else ExecuteAndSettle(Advance(m), instr, input)
  }

  /** A step that has fetched `instr`. */
  function StepWith(m: Machine, instr: Instr, input: Inputs): (r: Machine)
    requires Valid(m)
    ensures |r.cells| == |m.cells|
  {
    var core := Core(m, instr, input);
    if instr.DebugMark? then core else TimerPhase(core)
  }

  function Step(m: Machine, input: Inputs): (r: Machine)
    requires Valid(m)
    ensures |r.cells| == |m.cells|
  {
    if !m.status.Running? then m
    else
      var line := Fetch(m);
      match line.signal
      case Done => StepWith(m, Decode(line.value), input)
      case Wild => Advance(m).(status := Undefined)
      case _ => Advance(m).(status := Crashed)
  }

  // ---- Power-on ----

  /** The reset vector loads the firmware image to cell 1 and notes the RAM size; an image that
      does not fit is refused. */
  function PowerOn(size: nat, image: seq<string>, disks: map<string, seq<string>>): (m: Option<Machine>)
    requires size >= MIN_RAM_SIZE
    ensures m.Some? <==> |image| < size
    ensures m.Some? ==> Valid(m.value) && |m.value.cells| == size + 1 && m.value.kernel && m.value.status.Running?
    ensures m.Some? ==> m.value.cells[FREE_MEMORY_END] == PrintInt(size) && m.value.disks == disks
    ensures m.Some? ==> forall i :: 1 <= i <= |image| && i != FREE_MEMORY_END ==> m.value.cells[i] == image[i - 1]
  {
    if |image| >= size then None
    else
      var cells := ["0"] + image + seq(size - |image|, i => "0");
      Some(Machine(cells[FREE_MEMORY_END := PrintInt(size)], true, Running, disks))
  }
}
