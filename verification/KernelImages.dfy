/** The kernel's machine code routines written out at addresses of their own: memories that the
    statements about the call stack and the system call handler are about. */
module KernelImages {
  import opened Text
  import opened Hardware
  import opened Stepping
  import opened MachineCode
  import E = Encoding
  import S = Stack
  import D = Dispatch

  // ---- The call stack ----

  /** Push and pop one behind the other, then their constants and their variables. */
  const STACK := S.Layout(41, 62, 78, 79, 80, 80, 81, 82, 83, 84, 85, 86, 87)

  function StackInstr(c: int): Instr {
    if c == 41 then Cp(REG_A, 83) else if c == 42 then Cp(81, REG_A) else if c == 43 then Cp(78, REG_OP)
    else if c == 45 then Cp(REG_RES, 81) else if c == 46 then Cp(FREE_MEMORY_END, REG_A)
    else if c == 48 then Cp(REG_RES, FREE_MEMORY_END) else if c == 49 then Cp(80, REG_A)
      else if c == 50 then Cp(79, REG_OP)
    else if c == 52 then Cp(REG_RES, REG_A) else if c == 54 then Copy(Direct(REG_RES), Indirect(81))
    else if c == 55 then Cp(82, REG_A) else if c == 57 then Cp(REG_RES, REG_A) else if c == 59 then Cp(REG_RES, 82)
    else if c == 60 then Cp(83, REG_A) else if c == 61 then Jump(Always, Indirect(82))
    else if c == 62 then Cp(REG_A, 83) else if c == 63 then Cp(REG_RES, 84) else if c == 64 then Cp(REG_ERROR, 85)
    else if c == 65 then Copy(Indirect(81), Direct(86)) else if c == 66 then Cp(81, REG_A)
      else if c == 67 then Cp(79, REG_OP)
    else if c == 69 then Cp(REG_RES, 81) else if c == 70 then Cp(FREE_MEMORY_END, REG_A)
      else if c == 71 then Cp(79, REG_OP)
    else if c == 73 then Cp(REG_RES, FREE_MEMORY_END) else if c == 74 then Cp(83, REG_A)
      else if c == 75 then Cp(84, REG_RES)
    else if c == 76 then Cp(85, REG_ERROR) else if c == 77 then Jump(Always, Indirect(86)) else Exec
  }

  function StackCell(c: int, size: nat): string {
    if KERNEL_START <= c <= 77 then TextOf(StackInstr(c))
    else if c == 78 then "3" else if c == 79 then "2"
    else if c == 81 then PrintInt(size + 1) else if c == FREE_MEMORY_END then PrintInt(size) else ""
  }

  function StackMemory(size: nat): (v: Cells)
    ensures |v| == size + 1 && forall c :: 0 <= c <= size ==> v[c] == StackCell(c, size)
  {
    seq(size + 1, c => StackCell(c, size))
  }

  lemma StackHolds(size: nat)
    requires MIN_RAM_SIZE <= size
    ensures forall c, i :: KERNEL_START <= c <= 77 && i == StackInstr(c) ==> Holds(StackMemory(size), c, i)
  {
    hide Decode, TextOf, PrintInt, IsLine;
    forall c, i | KERNEL_START <= c <= 77 && i == StackInstr(c)
      ensures Holds(StackMemory(size), c, i)
    {
      TextIsLine(i);
      LineDecodes(TextOf(i), i);
    }
  }

  lemma PushIsWritten(size: nat)
    requires MIN_RAM_SIZE <= size
    ensures S.PushCode(StackMemory(size), STACK)
  {
    hide Holds, StackMemory;
    StackHolds(size);
  }

  lemma PopIsWritten(size: nat)
    requires MIN_RAM_SIZE <= size
    ensures S.PopCode(StackMemory(size), STACK)
  {
    hide Holds, StackMemory;
    StackHolds(size);
  }

  /** The empty stack of a machine of any size: the pointer is one behind the RAM. */
  lemma StackIsReady(size: nat)
    requires MIN_RAM_SIZE <= size && InInt(size + 2)
    ensures S.StackAt(StackMemory(size), STACK, size + 1)
  {
    hide Holds, S.PushCode, S.PopCode, PrintInt, TextOf;
    PushIsWritten(size);
    PopIsWritten(size);
  }

  // ---- The system call handler ----

  const HANDLER := D.Handler(41, 100, 63, 64, 65, 66, 67, 68, 69, 70, 71, 72, 74, 73)

  function HandlerInstr(c: int): Instr {
    if c == 41 then Cp(REG_A, 67) else if c == 42 then Cp(REG_B, 68) else if c == 43 then Cp(REG_C, 69)
    else if c == 44 then Cp(REG_D, 70) else if c == 45 then Cp(REG_E, 71) else if c == 46 then Cp(71, REG_A)
    else if c == 47 then Cp(63, REG_OP) else if c == 49 then Jump(IfFalse, Direct(100))
      else if c == 50 then Cp(64, REG_B)
    else if c == 51 then Cp(65, REG_OP) else if c == 53 then Jump(IfTrue, Direct(100))
      else if c == 54 then Cp(72, REG_B)
    else if c == 56 then Jump(IfFalse, Direct(100)) else if c == 58 then Cp(71, REG_B)
      else if c == 59 then Cp(66, REG_OP)
    else if c == 61 then Copy(Indirect(REG_RES), Direct(73)) else if c == 62 then Jump(Always, Indirect(73)) else Exec
  }

  /** The table of 19 handlers starts at cell 74. */
  function HandlerCell(c: int, handlers: seq<int>): string {
    if c == 57 then "1 @" + PrintInt(74) + " " + PrintInt(REG_A)
    else if KERNEL_START <= c <= 62 then TextOf(HandlerInstr(c))
    else if c == 63 then "7" else if c == 64 then PrintInt(0) else if c == 65 then "10" else if c == 66 then "0"
    else if c == 72 then PrintInt(|handlers|)
    else if 74 <= c < 74 + |handlers| then PrintInt(handlers[c - 74]) else ""
  }

  function HandlerMemory(handlers: seq<int>): (v: Cells)
    ensures |v| == 101 + |handlers| && forall c :: 0 <= c < |v| ==> v[c] == HandlerCell(c, handlers)
  {
    seq(101 + |handlers|, c => HandlerCell(c, handlers))
  }

  lemma HandlerHolds(handlers: seq<int>)
    ensures forall c, i :: KERNEL_START <= c <= 62 && c != 57 && i == HandlerInstr(c) ==>
              Holds(HandlerMemory(handlers), c, i)
  {
    hide Decode, TextOf, PrintInt, IsLine;
    forall c, i | KERNEL_START <= c <= 62 && c != 57 && i == HandlerInstr(c)
      ensures Holds(HandlerMemory(handlers), c, i)
    {
      TextIsLine(i);
      LineDecodes(TextOf(i), i);
    }
  }

  lemma TableLineHolds(handlers: seq<int>)
    ensures Holds(HandlerMemory(handlers), 57, Copy(Literal(PrintInt(74)), Direct(REG_A)))
  {
    hide Decode, PrintInt, E.NumberText, Stoi;
    E.ParsedAddress('@', 74);
    E.ParsedAddress('_', REG_A);
    E.DecodeCopyText('@', PrintInt(74), '_', PrintInt(REG_A), "");
    var text := "1 @" + PrintInt(74) + " " + PrintInt(REG_A);
    assert text == "1 " + "@" + PrintInt(74) + " " + "" + PrintInt(REG_A) + "";
  }

  lemma HandlerIsWritten(handlers: seq<int>)
    ensures var v := HandlerMemory(handlers);
            D.EntryCode(v, HANDLER) && D.NumberCode(v, HANDLER) && D.RangeCode(v, HANDLER)
  {
    hide Holds, HandlerMemory;
    HandlerHolds(handlers);
  }

  lemma TableIsWritten(handlers: seq<int>)
    ensures D.TableCode(HandlerMemory(handlers), HANDLER)
  {
    hide Holds, HandlerMemory, PrintInt;
    HandlerHolds(handlers);
    TableLineHolds(handlers);
  }

  /** The handler with any table of addresses. */
  lemma HandlerIsInstalled(handlers: seq<int>)
    requires forall n :: 0 <= n < |handlers| ==> InInt(handlers[n]) && InInt(handlers[n] - 1)
    requires InInt(101 + |handlers|)
    ensures D.Installed(HandlerMemory(handlers), HANDLER, handlers)
  {
    hide D.EntryCode, D.NumberCode, D.RangeCode, D.TableCode, PrintInt, TextOf;
    HandlerIsWritten(handlers);
    TableIsWritten(handlers);
  }
}
