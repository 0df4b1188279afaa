/** The emulator's objects. Each method updates its object in place and is proved against the
    functions of `Hardware.dfy`. */
module CpuObject {
  import opened Wrappers
  import opened Text
  import C = Columns
  import opened Hardware

  class Ram {
    const data: array<string>
    var kernelMode: bool

    constructor (size: nat)
      requires size >= MIN_RAM_SIZE
      ensures fresh(data) && data.Length == size + 1 && kernelMode
      ensures forall i :: 0 <= i <= size ==> data[i] == "0"
    {
      data := new string[size + 1](i => "0");
      kernelMode := true;
    }

    ghost predicate Sized() {
      data.Length > MIN_RAM_SIZE
    }

    /** The RAM as a machine value; status and disks play no part in RAM accesses. */
    ghost function View(): (m: Machine)
      reads this, data
      ensures |m.cells| == data.Length
    {
      Machine(data[..], kernelMode, Running, map[])
    }

    method Place(addr: int) returns (place: Place)
      requires Sized()
      ensures place == Locate(View(), addr)
      ensures place.At? ==> place.index < data.Length
    {
      if kernelMode {
        if addr < 1 || addr > data.Length - 1 {
          return Refused;
        }
        return At(addr);
      }
      if addr >= 1 && addr <= USER_SPACE_END {
        return At(addr);
      }
      var translated := addr + BoundOf(data[PROC_START]);
      if translated > BoundOf(data[PROC_END]) {
        return Refused;
      }
      place := if 0 <= translated < data.Length then At(translated) else Outside;
    }

    method ReadCell(addr: int) returns (value: string, signal: Signal)
      requires Sized()
      ensures ReadResult(value, signal) == Read(View(), addr)
    {
      var place := Place(addr);
      match place
      case At(i) => return data[i], Done;
      case Refused => return "", MemoryFault;
      case Outside => return "", Wild;
    }

    method WriteCell(addr: int, value: string) returns (signal: Signal)
      requires Sized()
      modifies data
      ensures Outcome(View(), signal) == Write(old(View()), addr, value)
    {
      var place := Place(addr);
      match place
      case At(i) =>
        data[i] := value;
        assert data[..] == old(data[..])[i := value];
        return Done;
      case Refused => return MemoryFault;
      case Outside => return Wild;
    }

    /** A register or a system cell, by index. */
    method Set(i: int, value: string)
      requires 0 <= i < data.Length
      modifies data
      ensures data[..] == old(data[..])[i := value]
    {
      data[i] := value;
    }
  }

  class Disk {
    var files: map<string, seq<string>>

    constructor (files: map<string, seq<string>>)
      ensures this.files == files
    {
      this.files := files;
    }

    /** Scans the file line by line up to the requested block. */
    method ReadBlock(name: string, number: int) returns (block: BlockRead)
      ensures block == Hardware.ReadBlock(files, name, number)
    {
      if name !in files || number < 1 || |files[name]| == 0 {
        return NoBlock;
      }
      var lines := files[name];
      var line := lines[0];
      var count := Stoi(line);
      if count.None? {
        return BadHeader;
      }
      if number > count.value {
        return NoBlock;
      }
      var i := 2;
      while i <= number
        invariant 2 <= i <= number + 1 || (number == 1 && i == 2)
        invariant i - 2 < |lines| && line == lines[i - 2]
      {
        if i > |lines| {
          return NoBlock;
        }
        line := lines[i - 1];
        i := i + 1;
      }
      block := Block(line);
    }

    method WriteBlock(name: string, number: int, data: string) returns (r: BlockWrite)
      modifies this
      ensures r == Hardware.WriteBlock(old(files), name, number, data)
      ensures files == if r.Written? then r.disks else old(files)
    {
      if name !in files || |files[name]| == 0 {
        return NotWritten;
      }
      var lines := files[name];
      var count := Stoi(lines[0]);
      if count.None? {
        return BadDisk;
      }
      if number < 2 || number >= count.value {
        return NotWritten;
      }
      if number > |lines| {
        lines := lines + seq(number - |lines|, i => "");
      }
      lines := lines[number - 1 := data];
      files := files[name := lines];
      r := Written(files);
    }
  }

  /** The scan behind OP_GET_COLUMN: columns are cut at delimiters, empty ones dropped. */
  method SplitTokens(a: string, delims: string) returns (tokens: seq<string>)
    ensures tokens == C.Tokens(a, delims)
  {
    tokens := [];
    var current := "";
    var i := 0;
    assert [""][..0] == [];
    while i < |a|
      invariant 0 <= i <= |a|
      invariant var fs := C.Fields(a[..i], delims);
                tokens == C.NonEmpty(fs[..|fs| - 1]) && current == fs[|fs| - 1]
    {
      assert a[..i + 1][..i] == a[..i] && a[..i + 1][i] == a[i];
      ghost var fs := C.Fields(a[..i], delims);
      if a[i] in delims {
        assert (fs + [""])[..|fs|] == fs;
        if current != "" {
          tokens := tokens + [current];
          current := "";
        }
      } else {
        assert (fs[..|fs| - 1] + [current + [a[i]]])[..|fs| - 1] == fs[..|fs| - 1];
        current := current + [a[i]];
      }
      i := i + 1;
    }
    assert a[..i] == a;
    if current != "" {
      tokens := tokens + [current];
    }
  }

  method SplitFields(a: string, delims: string) returns (fields: seq<string>)
    ensures fields == C.Fields(a, delims)
  {
    fields := [];
    var current := "";
    var i := 0;
    while i < |a|
      invariant 0 <= i <= |a|
      invariant C.Fields(a[..i], delims) == fields + [current]
    {
      assert a[..i + 1][..i] == a[..i] && a[..i + 1][i] == a[i];
      if a[i] in delims {
        fields := fields + [current];
        current := "";
      } else {
        current := current + [a[i]];
      }
      i := i + 1;
    }
    assert a[..i] == a;
    fields := fields + [current];
  }

  method JoinFields(fields: seq<string>, sep: string) returns (text: string)
    ensures text == C.Join(fields, sep)
  {
    text := "";
    var i := 0;
    while i < |fields|
      invariant 0 <= i <= |fields|
      invariant text == C.Join(fields[..i], sep)
    {
      assert fields[..i + 1][..i] == fields[..i];
      if i > 0 {
        text := text + sep;
      }
      text := text + fields[i];
      i := i + 1;
    }
    assert fields[..i] == fields;
  }

  method GetColumnOf(a: string, column: int, c: string) returns (value: string)
    ensures value == C.GetColumn(a, column, c)
  {
    if c == "" {
      return if 1 <= column <= |a| then [a[column - 1]] else "";
    }
    var tokens := SplitTokens(a, c);
    value := if 1 <= column <= |tokens| then tokens[column - 1] else "";
  }

  method ReplaceColumnOf(a: string, column: int, c: string, d: string) returns (value: string)
    ensures value == C.ReplaceColumn(a, column, c, d)
  {
    if c == "" {
      return if 1 <= column <= |a| then a[column - 1 := if d == "" then ' ' else d[0]] else a;
    }
    var fields := SplitFields(a, c);
    if 1 <= column <= |fields| {
      fields := fields[column - 1 := d];
    }
    value := JoinFields(fields, c);
  }

  class Cpu {
    const ram: Ram
    const disk: Disk
    var status: Status

    constructor (ram: Ram, disk: Disk)
      requires ram.Sized()
      ensures this.ram == ram && this.disk == disk && status == Running
    {
      this.ram := ram;
      this.disk := disk;
      status := Running;
    }

    ghost predicate Ready() {
      ram.Sized()
    }

    ghost function Value(): (m: Machine)
      reads this, ram, ram.data, disk
      ensures |m.cells| == ram.data.Length
    {
      Machine(ram.data[..], ram.kernelMode, status, disk.files)
    }

    /** The reset vector: loads the firmware image line by line and notes the RAM size. */
    method LoadFirmware(image: seq<string>) returns (ok: bool)
      requires Ready() && ram.kernelMode && status.Running?
      requires forall i :: 0 <= i < ram.data.Length ==> ram.data[i] == "0"
      modifies ram.data
      ensures ok == PowerOn(ram.data.Length - 1, image, disk.files).Some?
      ensures ok ==> Value() == PowerOn(ram.data.Length - 1, image, disk.files).value
    {
      var size := ram.data.Length - 1;
      var address := 1;
      while address <= |image|
        invariant 1 <= address <= |image| + 1 && address <= size + 1 && (address > 1 ==> address - 1 < size)
        invariant forall i :: 0 <= i <= size ==> ram.data[i] == if 1 <= i < address then image[i - 1] else "0"
      {
        if address >= size {
          return false;
        }
        ram.Set(address, image[address - 1]);
        address := address + 1;
      }
      assert ram.data[..] == ["0"] + image + seq(size - |image|, i => "0");
      ram.Set(FREE_MEMORY_END, PrintInt(size));
      ok := true;
    }

    method SetPc(pc: int)
      requires Ready()
      modifies ram.data
      ensures Value() == Hardware.SetPc(old(Value()), pc)
    {
      ram.Set(PROGRAM_COUNTER, PrintInt(pc));
    }

    method ReadValue(addr: int) returns (value: string, signal: Signal)
      requires Ready()
      ensures ReadResult(value, signal) == Read(Value(), addr)
    {
      value, signal := ram.ReadCell(addr);
    }

    method WriteValue(addr: int, value: string) returns (signal: Signal)
      requires Ready()
      modifies ram.data
      ensures Outcome(Value(), signal) == Write(old(Value()), addr, value)
    {
      signal := ram.WriteCell(addr, value);
    }

    method PointerOf(op: Operand) returns (r: Resolved)
      requires Ready()
      ensures r == Pointer(Value(), op)
    {
      hide Stoi, Read;
      match op
      case Direct(a) => r := Resolved(Some(a), Done);
      case Indirect(p) =>
        var value, signal := ReadValue(p);
        r := Resolved(Stoi(value), signal);
      case JunkIndirect => r := Resolved(None, Thrown);
      case _ => r := Resolved(None, Done);
    }

    method ExecuteCopy(src: Operand, dst: Operand) returns (signal: Signal)
      requires Ready()
      modifies ram.data
      ensures Outcome(Value(), signal) == ExecCopy(old(Value()), src, dst)
    {
      hide Read, Write, Pointer, Value;
      var s := PointerOf(src);
      if s.signal != Done {
        return s.signal;
      }
      var d := PointerOf(dst);
      if d.signal != Done {
        return d.signal;
      }
      if d.addr.None? {
        return Thrown;
      }
      if src.Literal? {
        signal := WriteValue(d.addr.value, src.text);
        return;
      }
      if s.addr.None? {
        return Thrown;
      }
      var value, read := ReadValue(s.addr.value);
      if read != Done {
        return read;
      }
      signal := WriteValue(d.addr.value, value);
    }

    method ExecuteJump(cond: Condition, target: Operand) returns (signal: Signal)
      requires Ready()
      modifies ram.data
      ensures Outcome(Value(), signal) == ExecJump(old(Value()), cond, target)
    {
      if target.NoOperand? {
        return CpuFault;
      }
      var t := PointerOf(target);
      if t.signal != Done {
        return t.signal;
      }
      if t.addr.None? {
        return Thrown;
      }
      var take :=
        match cond
        case Always => true
        case IfTrue => ram.data[REG_BOOL] == "1"
        case IfFalse => ram.data[REG_BOOL] == "0"
        case IfError => ram.data[REG_ERROR] != "";
      if take {
        SetPc(t.addr.value - 1);
      }
      signal := Done;
    }

    /** Runs a computing operation; the column operations split and join in loops. */
    method ComputeAlu(op: int, a: string, b: string, c: string, d: string, input: Inputs) returns (alu: Alu)
      ensures alu == Compute(op, a, b, c, d, input)
    {
      if op == OP_GET_COLUMN || op == OP_REPLACE_COLUMN {
        var column := Stoi(b);
        if column.None? {
          return AluSignal(Thrown);
        }
        var text: string;
        if op == OP_GET_COLUMN {
          text := GetColumnOf(a, column.value, c);
        } else {
          text := ReplaceColumnOf(a, column.value, c, d);
        }
        return ResultOf(text);
      }
      alu := Compute(op, a, b, c, d, input);
    }

    method StoreAlu(alu: Alu)
      requires Ready()
      modifies ram.data
      ensures Outcome(Value(), alu.signal) == ApplyAlu(old(Value()), alu)
    {
      if alu.res.Some? {
        ram.Set(REG_RES, alu.res.value);
      }
      if alu.flag.Some? {
        ram.Set(REG_BOOL, alu.flag.value);
      }
      if alu.err.Some? {
        ram.Set(REG_ERROR, alu.err.value);
      }
    }

    method ExecuteReadBlock(name: string, number: string) returns (signal: Signal)
      requires Ready()
      modifies ram.data
      ensures Outcome(Value(), signal) == ExecReadBlock(old(Value()), name, number)
    {
      var n := Stoi(number);
      if n.None? {
        return Thrown;
      }
      var block := disk.ReadBlock(name, n.value);
      match block
      case Block(text) =>
        ram.Set(REG_RES, text);
        signal := Done;
      case NoBlock =>
        ram.Set(REG_ERROR, "Failed to read block");
        signal := Done;
      case BadHeader => signal := Thrown;
    }

    method ExecuteWriteBlock(name: string, number: string, data: string) returns (signal: Signal)
      requires Ready()
      modifies ram.data, disk
      ensures Outcome(Value(), signal) == ExecWriteBlock(old(Value()), name, number, data)
    {
      var n := Stoi(number);
      if n.None? {
        return Thrown;
      }
      var r := disk.WriteBlock(name, n.value, data);
      match r
      case Written(_) => signal := Done;
      case NotWritten =>
        ram.Set(REG_ERROR, "Failed to write block");
        signal := Done;
      case BadDisk => signal := Thrown;
    }

    method SaveRegisters() returns (signal: Signal)
      requires Ready()
      modifies ram.data
      ensures Outcome(Value(), signal) == SaveUser(old(Value()))
    {
      hide Stoi;
      var cell := ram.data[PROC_START];
      if cell == "" || cell == "0" {
        return Done;
      }
      var offset := Stoi(cell);
      if offset.None? {
        return Thrown;
      }
      var i := 1;
      while i <= USER_SPACE_END
        invariant 1 <= i <= USER_SPACE_END + 1
        invariant BackupRegisters(Value(), offset.value, i) == BackupRegisters(old(Value()), offset.value, 1)
      {
        if i + offset.value < 1 || i + offset.value > ram.data.Length - 1 {
          return MemoryFault;
        }
        ram.Set(i + offset.value, ram.data[i]);
        i := i + 1;
      }
      signal := Done;
    }

    method LoadRegisters() returns (signal: Signal)
      requires Ready()
      modifies ram.data
      ensures Outcome(Value(), signal) == LoadUser(old(Value()))
    {
      hide Stoi, PrintInt;
      var cell := ram.data[PROC_START];
      if cell == "" || cell == "0" {
        return Done;
      }
      var offset := Stoi(cell);
      if offset.None? {
        return Thrown;
      }
      var i := 1;
      while i <= USER_SPACE_END
        invariant 1 <= i <= USER_SPACE_END + 1
        invariant RestoreRegisters(Value(), offset.value, i) == RestoreRegisters(old(Value()), offset.value, 1)
      {
        if i + offset.value < 1 || i + offset.value > ram.data.Length - 1 {
          return MemoryFault;
        }
        ram.Set(i, ram.data[i + offset.value]);
        i := i + 1;
      }
      signal := Done;
    }

    method Enter(kind: string, flag: string, handlerCell: int) returns (signal: Signal)
      requires Ready() && 0 <= handlerCell < INTERRUPT_DATA
      modifies ram, ram.data
      ensures Outcome(Value(), signal) == EnterHandler(old(Value()), kind, flag, handlerCell)
    {
      var pc := Stoi(ram.data[PROGRAM_COUNTER]);
      if pc.None? {
        return Thrown;
      }
      ram.Set(INTERRUPT_DATA, InterruptRecord(kind, pc.value, flag));
      ram.kernelMode := true;
      var handler := HandlerAddress(ram.data[handlerCell]);
      if handler.None? {
        return Thrown;
      }
      SetPc(handler.value - 1);
      signal := Done;
    }

    method ExecuteSysCall() returns (signal: Signal)
      requires Ready()
      modifies ram, ram.data
      ensures Outcome(Value(), signal) == ExecSysCall(old(Value()))
    {
      ram.kernelMode := true;
      signal := SaveRegisters();
      if signal == Done {
        signal := Enter("0", "0", SYSCALL_HANDLER);
      }
    }

    method ExecuteSysReturn(savedRes: string, savedErr: string) returns (signal: Signal)
      requires Ready()
      modifies ram, ram.data
      ensures Outcome(Value(), signal) == ExecSysReturn(old(Value()), savedRes, savedErr)
    {
      signal := LoadRegisters();
      if signal != Done {
        return;
      }
      var kind := TokenOr(ram.data[INTERRUPT_DATA]);
      var pc := TokenOr(kind.1);
      var flag := TokenOr(pc.1);
      if flag.0 != "1" {
        ram.Set(REG_RES, savedRes);
        ram.Set(REG_ERROR, savedErr);
      }
      ram.Set(PROGRAM_COUNTER, pc.0);
      ram.Set(INTERRUPT_DATA, "");
      ram.kernelMode := false;
    }

    method ExecuteDevice(op: int, savedRes: string, savedErr: string, input: Inputs) returns (signal: Signal)
      requires Ready()
      modifies this, ram, ram.data, disk
      ensures Outcome(Value(), signal) == ExecDevice(old(Value()), op, savedRes, savedErr, input)
    {
      var a, b, c := ram.data[REG_A], ram.data[REG_B], ram.data[REG_C];
      signal := Done;
      if op == OP_READ_INPUT {
        if input.line.None? {
          status := Halted;
        } else {
          ram.Set(KEYBOARD_BUFFER, input.line.value);
        }
      } else if op == OP_READ_BLOCK {
        signal := ExecuteReadBlock(a, b);
      } else if op == OP_WRITE_BLOCK {
        signal := ExecuteWriteBlock(a, b, c);
      } else if op == OP_SET_BACKGROUND_COLOR {
        ram.Set(DISPLAY_BACKGROUND, input.background);
      } else if op == OP_RENDER_BITMAP {
        signal := RenderBitmap(a, b);
      } else if op == OP_SYSCALL {
        signal := ExecuteSysCall();
      } else if op == OP_SYSRETURN {
        signal := ExecuteSysReturn(savedRes, savedErr);
      } else if op == OP_NOP {
        signal := if a != "" && input.floatText.None? then Thrown else Done;
      } else if op == OP_HALT {
        status := Halted;
      } else if op != 19 && op != 20 {
        signal := CpuFault;
      }
    }

    method RenderBitmap(first: string, last: string) returns (signal: Signal)
      requires Ready()
      ensures Outcome(Value(), signal) == ExecRenderBitmap(Value(), first, last)
    {
      var s, e := Stoi(first), Stoi(last);
      var x, y := ram.data[REG_C], ram.data[REG_D];
      if s.None? || e.None? || (x != "" && Stoi(x).None?) || (y != "" && Stoi(y).None?) || e.value < s.value {
        return Thrown;
      }
      signal := if s.value < e.value && (s.value < 1 || e.value - 1 > ram.data.Length - 1) then MemoryFault else Done;
    }

    method ExecuteOperation(input: Inputs) returns (signal: Signal)
      requires Ready()
      modifies this, ram, ram.data, disk
      ensures Outcome(Value(), signal) == ExecOperation(old(Value()), input)
    {
      if ram.data[REG_OP] == "" {
        return Done;
      }
      var op := Stoi(ram.data[REG_OP]);
      if op.None? {
        return Thrown;
      }
      if !ram.kernelMode && IsPrivileged(op.value) {
        return CpuFault;
      }
      var energy := if ram.data[SYS_ENERGY] == "" then Some(0) else Stoi(ram.data[SYS_ENERGY]);
      if energy.None? {
        return Thrown;
      }
      ram.Set(SYS_ENERGY, PrintInt(energy.value + EnergyCost(op.value)));
      var savedRes, savedErr := ram.data[REG_RES], ram.data[REG_ERROR];
      ram.Set(REG_ERROR, "");
      signal := PerformOperation(op.value, savedRes, savedErr, input);
    }

    method PerformOperation(op: int, savedRes: string, savedErr: string, input: Inputs) returns (signal: Signal)
      requires Ready()
      modifies this, ram, ram.data, disk
      ensures Outcome(Value(), signal) == Perform(old(Value()), op, savedRes, savedErr, input)
    {
      if IsComputing(op) {
        var alu := ComputeAlu(op, ram.data[REG_A], ram.data[REG_B], ram.data[REG_C], ram.data[REG_D], input);
        StoreAlu(alu);
        signal := alu.signal;
      } else {
        signal := ExecuteDevice(op, savedRes, savedErr, input);
      }
    }

    method ExecuteInstruction(instr: Instr, input: Inputs) returns (signal: Signal)
      requires Ready()
      modifies this, ram, ram.data, disk
      ensures Outcome(Value(), signal) == Execute(old(Value()), instr, input)
    {
      match instr
      case Exec => signal := ExecuteOperation(input);
      case Copy(src, dst) => signal := ExecuteCopy(src, dst);
      case Jump(cond, target) => signal := ExecuteJump(cond, target);
      case Debug => signal := Done;
      case DebugMark => signal := Done;
      case BadCode => signal := CpuFault;
    }

    method FinishWith(signal: Signal)
      modifies this
      ensures Value() == Finish(Outcome(old(Value()), signal))
    {
      if signal == Wild {
        status := Undefined;
      } else if signal != Done {
        status := Crashed;
      }
    }

    /** A fault stops a kernel; a user program is made to exit. */
    method RaiseFault(code: string, input: Inputs)
      requires Ready()
      modifies this, ram, ram.data, disk
      ensures Value() == HandleFault(old(Value()), code, input)
    {
      if ram.kernelMode {
        status := Halted;
        return;
      }
      ram.Set(REG_A, code);
      ram.Set(REG_E, "0");
      ram.Set(REG_OP, "25");
      var signal := ExecuteOperation(input);
      FinishWith(signal);
    }

    method CheckTimer() returns (fires: bool)
      requires Ready()
      modifies ram.data
      ensures fires <==> !ram.kernelMode && Stoi(old(ram.data[HW_TIMER])) == Some(0)
      ensures Value() == (var t := Stoi(old(ram.data[HW_TIMER]));
                          if ram.kernelMode || t.None? || t.value < 0 then old(Value())
                          else Put(old(Value()), HW_TIMER, if t.value == 0 then "-1" else PrintInt(t.value - 1)))
    {
      fires := false;
      if ram.kernelMode {
        return;
      }
      var t := Stoi(ram.data[HW_TIMER]);
      if t.None? || t.value < 0 {
        return;
      }
      if t.value == 0 {
        ram.Set(HW_TIMER, "-1");
        fires := true;
      } else {
        ram.Set(HW_TIMER, PrintInt(t.value - 1));
      }
    }

    /** One step: advance, fetch, poll, execute, settle faults, check the timer. */
    method Step(input: Inputs)
      requires Ready() && status == Running
      modifies this, ram, ram.data, disk
      ensures Value() == Hardware.Step(old(Value()), input)
    {
      hide Decode, Stoi, PrintInt, ExecuteAndSettle, TimerPhase, Read;
      var pc := Stoi(ram.data[PROGRAM_COUNTER]);
      if pc.None? {
        status := Crashed;
        return;
      }
      SetPc(pc.value + 1);
      var line, fetched := ReadValue(pc.value + 1);
      assert ReadResult(line, fetched) == Fetch(old(Value()));
      if fetched != Done {
        status := if fetched == Wild then Undefined else Crashed;
        return;
      }
      var instr := Decode(line);
      if instr.DebugMark? {
        return;
      }
      ExecuteStep(instr, input);
      CheckAfter();
    }

    method ExecuteStep(instr: Instr, input: Inputs)
      requires Ready()
      modifies this, ram, ram.data, disk
      ensures Value() == ExecuteAndSettle(old(Value()), instr, input)
    {
      if input.key != 0 {
        ram.Set(LAST_KEY, PrintInt(input.key));
      }
      var signal := ExecuteInstruction(instr, input);
      if signal == MemoryFault {
        RaiseFault("139", input);
      } else if signal == CpuFault {
        RaiseFault("1", input);
      } else {
        FinishWith(signal);
      }
    }

    method CheckAfter()
      requires Ready()
      modifies this, ram, ram.data
      ensures Value() == TimerPhase(old(Value()))
    {
      if status == Running && !ram.kernelMode {
        var fires := CheckTimer();
        if fires {
          var signal := Enter("1", "1", INTERRUPT_HANDLER);
          FinishWith(signal);
        }
      }
    }
  }
}
