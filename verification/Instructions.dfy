/** What the instructions of the CPU do, form by form and in both modes: which cell an address
    denotes, how an instruction text is read, what is copied and when a jump is taken. */
module Instructions {
  import opened Wrappers
  import opened Text
  import opened Columns
  import opened Hardware
  import opened Isolation
  import opened Syscalls

  // ---- Addresses ----

  /** Address a denotes cell i: itself in kernel mode and for the eleven registers of a user
      program, and otherwise the cell that far behind the process start, up to the process end. */
  predicate Denotes(m: Machine, a: int, i: int)
    requires Valid(m)
  {
    && 0 <= i < |m.cells|
    && if m.kernel then 1 <= a && i == a
       else if 1 <= a <= 11 then i == a
       else i == a + ProcStart(m) && i <= ProcEnd(m)
  }

  /** An address that denotes a cell reads and writes it; any other access changes nothing and is
      a memory fault, except where a user address passes the check on the end and misses the RAM. */
  lemma AddressesDenote(m: Machine, a: int, v: string)
    requires Valid(m)
    ensures forall i :: Denotes(m, a, i) ==>
              && Read(m, a) == ReadResult(m.cells[i], Done)
              && Write(m, a, v) == Outcome(m.(cells := m.cells[i := v]), Done)
    ensures (forall i :: !Denotes(m, a, i)) ==>
              && Read(m, a).signal == Write(m, a, v).signal && Write(m, a, v).m == m
              && Read(m, a).signal == if !m.kernel && a + ProcStart(m) <= ProcEnd(m) then Wild else MemoryFault
  {
    hide ProcStart, ProcEnd;
    assert Denotes(m, a, a) || Denotes(m, a, a + ProcStart(m)) || forall i :: !Denotes(m, a, i);
  }

  /** The bounds of the running process; a text that is no number counts as 0. */
  lemma BoundsOfProcess(m: Machine)
    requires Valid(m)
    ensures var start, end := Stoi(m.cells[21]), Stoi(m.cells[22]);
            && ProcStart(m) == (if start.Some? then start.value else 0)
            && ProcEnd(m) == (if end.Some? then end.value else 0)
  {
    ZeroIsZero();
    assert Stoi("").None?;
  }

  lemma ZeroIsZero()
    ensures Stoi("0") == Some(0)
  {
    assert PrintInt(0) == "0";
    StoiPrint(0);
  }

  // ---- Instruction texts ----

  /** The codes: 0 runs an operation, 1 copies, 2 to 5 jump, 6 switches tracing, and nothing else
      is an instruction. */
  lemma CodeTable(code: int, rest: string)
    requires InInt(code) && (rest == "" || rest[0] == ' ')
    ensures var i := Decode(PrintInt(code) + rest);
            && (code == 0 ==> i == Exec) && (code == 6 ==> i == Debug)
            && (code == 1 ==> i == DecodeCopy(rest)) && (!(0 <= code <= 6) ==> i == BadCode)
            && (code == 2 ==> i.Jump? && i.cond == Always) && (code == 3 ==> i.Jump? && i.cond == IfTrue)
            && (code == 4 ==> i.Jump? && i.cond == IfFalse) && (code == 5 ==> i.Jump? && i.cond == IfError)
  {
    hide ReadInt, DecodeCopy, ParseOperand, AfterFirstBlank, PrintInt;
    ReadPrinted(code, rest);
    PrintChars(code);
    assert (PrintInt(code) + rest)[0] == PrintInt(code)[0] && "DEBUG_ON"[0] == 'D' && "DEBUG_OFF"[0] == 'D';
    assert !IsDigit('D');
  }

  /** A fault for an unknown code, and no effect for tracing. */
  lemma NoInstruction(m: Machine, input: Inputs)
    requires Valid(m)
    ensures Execute(m, BadCode, input) == Outcome(m, CpuFault)
    ensures Execute(m, Debug, input) == Outcome(m, Done) && Execute(m, DebugMark, input) == Outcome(m, Done)
  {
  }

  // ---- Copies ----

  /** The operand names address a: by itself, or as the content of the cell it points to. */
  predicate Names(m: Machine, op: Operand, a: int)
    requires Valid(m)
  {
    match op
    case Direct(n) => a == n
    case Indirect(p) => Read(m, p).signal.Done? && Stoi(Read(m, p).value) == Some(a)
    case _ => false
  }

  /** The operand gives the text v: a literal itself, anything else the cell it names. */
  predicate Gives(m: Machine, op: Operand, a: int, v: string)
    requires Valid(m)
  {
    if op.Literal? then v == op.text else Names(m, op, a) && Read(m, a) == ReadResult(v, Done)
  }

  lemma CopyCopies(m: Machine, input: Inputs, src: Operand, dst: Operand, a: int, d: int, v: string)
    requires Valid(m) && Gives(m, src, a, v) && Names(m, dst, d)
    ensures Execute(m, Copy(src, dst), input) == Write(m, d, v)
  {
    hide Read, Write, Stoi;
  }

  /** Without a source or a destination nothing changes. */
  lemma CopyFails(m: Machine, input: Inputs, src: Operand, dst: Operand)
    requires Valid(m)
    ensures (forall d :: !Names(m, dst, d)) || (!src.Literal? && forall a, v :: !Gives(m, src, a, v)) ==>
              var o := Execute(m, Copy(src, dst), input); o.m == m && !o.signal.Done?
  {
    hide Read, Write, Stoi;
    var s, d := Pointer(m, src), Pointer(m, dst);
    if d.signal.Done? && d.addr.Some? {
      assert Names(m, dst, d.addr.value);
      if s.signal.Done? && s.addr.Some? {
        assert Read(m, s.addr.value).signal.Done? ==> Gives(m, src, s.addr.value, Read(m, s.addr.value).value);
      }
    }
  }

  // ---- Jumps ----

  /** A jump to a: the program counter, which is advanced before the next fetch, is one less. The
      conditions are BOOL "1", BOOL "0" and a non-empty ERROR. */
  lemma JumpJumps(m: Machine, input: Inputs, cond: Condition, target: Operand, a: int)
    requires Valid(m) && Names(m, target, a)
    ensures Execute(m, Jump(cond, target), input).signal.Done?
    ensures var taken := cond == Always || (cond == IfTrue && m.cells[9] == "1")
                         || (cond == IfFalse && m.cells[9] == "0") || (cond == IfError && m.cells[10] != "");
            Execute(m, Jump(cond, target), input).m ==
              if taken then m.(cells := m.cells[16 := PrintInt(a - 1)]) else m
  {
    hide Read, Stoi, PrintInt;
  }

  /** A target that names no address stops the jump, taken or not. */
  lemma JumpFails(m: Machine, input: Inputs, cond: Condition, target: Operand)
    requires Valid(m)
    ensures (forall a :: !Names(m, target, a)) ==>
              var o := Execute(m, Jump(cond, target), input); o.m == m && !o.signal.Done?
  {
    hide Read, Stoi, PrintInt;
    var t := Pointer(m, target);
    if t.signal.Done? && t.addr.Some? {
      assert Names(m, target, t.addr.value);
    }
  }

  // ---- Entering the kernel ----

  /** The machine in the kernel, about to run the instruction at h, with the record of the program
      at pc that it has left. */
  predicate Entered(m: Machine, kind: string, pc: int, flag: string, h: int, r: Machine) {
    && Valid(m)
    && r == m.(kernel := true,
               cells := m.cells[26 := kind + " " + PrintInt(pc) + " " + flag][16 := PrintInt(h - 1)])
  }

  /** The timer at 0 switches itself off and enters the interrupt handler with kind 1 and flag 1; a
      positive timer counts down; a negative one stands still. */
  lemma TimerEnters(m: Machine, t: int, pc: int, h: int)
    requires Valid(m) && !m.kernel && m.status.Running? && Stoi(m.cells[27]) == Some(t)
    requires Stoi(m.cells[16]) == Some(pc) && Stoi(m.cells[25]) == Some(h)
    ensures t == 0 ==> Entered(m.(cells := m.cells[27 := "-1"]), "1", pc, "1", h, TimerPhase(m))
    ensures t > 0 ==> TimerPhase(m) == m.(cells := m.cells[27 := PrintInt(t - 1)])
    ensures t < 0 ==> TimerPhase(m) == m
  {
    hide Stoi, PrintInt, HandlerAddress;
    HandlerIsNumber(m.cells[25], h);
  }

  /** A system call of a user program saves its registers and enters the call handler with kind 0
      and flag 0. */
  lemma CallEnters(m: Machine, lo: int, pc: int, h: int)
    requires UserReady(m) && ProcStart(m) == lo
    requires Stoi(m.cells[16]) == Some(pc) && Stoi(m.cells[23]) == Some(h)
    ensures var r := ExecSysCall(m);
            && r.signal.Done? && r.m.kernel && r.m.cells[26] == "0 " + PrintInt(pc) + " 0"
            && r.m.cells[16] == PrintInt(h - 1)
            && forall i :: 1 <= i <= 11 ==> lo + i < |m.cells| == |r.m.cells| && r.m.cells[lo + i] == m.cells[i]
  {
    hide Stoi, PrintInt, HandlerAddress, ExecSysCall, ProcStart, ProcEnd;
    HandlerIsNumber(m.cells[23], h);
    EntrySaves(m, lo, pc);
    assert "0" + " " + PrintInt(pc) + " " + "0" == "0 " + PrintInt(pc) + " 0";
  }

  /** Without a process, no register is saved or restored. */
  lemma TrapsWithoutProcess(m: Machine, pc: int, h: int, res: string, err: string)
    requires Valid(m) && m.cells[21] in {"", "0"} && Stoi(m.cells[16]) == Some(pc)
    ensures Stoi(m.cells[23]) == Some(h) ==>
              ExecSysCall(m).signal.Done? && Entered(m, "0", pc, "0", h, ExecSysCall(m).m)
    ensures m.cells[26] == "0 " + PrintInt(pc) + " 1" ==>
              ExecSysReturn(m, res, err) ==
                Outcome(m.(kernel := false, cells := m.cells[16 := PrintInt(pc)][26 := ""]), Done)
    ensures m.cells[26] == "0 " + PrintInt(pc) + " 0" ==>
              ExecSysReturn(m, res, err) ==
                Outcome(m.(kernel := false,
                           cells := m.cells[8 := res][10 := err][16 := PrintInt(pc)][26 := ""]), Done)
  {
    hide Stoi, PrintInt, HandlerAddress, TokenOr;
    HandlerIsNumber(m.cells[23], h);
    RecordParses("0", pc, "1");
    RecordParses("0", pc, "0");
    assert "0" + " " + PrintInt(pc) + " " + "1" == "0 " + PrintInt(pc) + " 1";
    assert "0" + " " + PrintInt(pc) + " " + "0" == "0 " + PrintInt(pc) + " 0";
  }

  /** The handler cell is read as a number, an empty one as 0. */
  lemma HandlerIsNumber(cell: string, h: int)
    ensures HandlerAddress(cell) == Some(h) <==> Stoi(cell) == Some(h) || (cell == "" && h == 0)
  {
    ZeroIsZero();
    assert Stoi("").None?;
  }

  // ---- How an instruction ends ----

  /** An exception crashes the emulator, an access outside the RAM vector has no defined result,
      and a fault halts a kernel. */
  lemma Endings(o: Outcome, input: Inputs)
    requires Valid(o.m)
    ensures o.signal.Done? ==> Settle(o, input) == o.m
    ensures o.signal.Thrown? ==> Settle(o, input) == o.m.(status := Crashed)
    ensures o.signal.Wild? ==> Settle(o, input) == o.m.(status := Undefined)
    ensures (o.signal.MemoryFault? || o.signal.CpuFault?) && o.m.kernel ==> Settle(o, input) == o.m.(status := Halted)
  {
    hide ExecOperation;
  }

  // ---- The keyboard ----

  /** A key that is down is noted before the instruction acts, and no key leaves the cell alone. */
  lemma KeyIsNoted(m: Machine, input: Inputs, code: string)
    requires Valid(m) && m.kernel && m.status.Running? && Fetch(m) == ReadResult(code, Done)
    requires Decode(code).Debug? || Decode(code).BadCode?
    ensures Step(m, input).cells[11] == if input.key != 0 then PrintInt(input.key) else m.cells[11]
  {
    hide Fetch, Decode, PrintInt, Stoi;
  }

  // ---- Power-on ----

  /** All cells that no image line has filled hold "0", but for the one with the size of the RAM. */
  lemma RestIsZero(size: nat, image: seq<string>, disks: map<string, seq<string>>, i: nat)
    requires size >= MIN_RAM_SIZE && |image| < size && (i == 0 || |image| < i <= size)
    ensures PowerOn(size, image, disks).value.cells[i] == if i == 18 then PrintInt(size) else "0"
  {
    hide PrintInt;
  }
}
