/** The kernel's stack routines as assembler source: compiled by an accepted compilation and
    loaded in kernel mode, they are the machine code that the stack statements are about. */
module KernelSource {
  import opened Wrappers
  import opened Text
  import opened Hardware
  import opened Stepping
  import opened MachineCode
  import opened Simulation
  import opened AddressMap
  import A = Assembler
  import E = Encoding
  import L = Layout
  import S = Stack

  // ---- Source lines ----

  function Reg(name: string): A.Lexeme { A.Lexeme(A.Register, '_', name) }
  function Named(x: string): A.Lexeme { A.Lexeme(A.Variable, '_', x) }
  function Through(x: string): A.Lexeme { A.Lexeme(A.Variable, '*', x) }
  function Op(name: string): A.Lexeme { A.Lexeme(A.Operation, '_', name) }
  function Label(x: string): A.Lexeme { A.Lexeme(A.Label, '_', x) }

  /** Line k of the code is `copy a to b`, with any comment. */
  ghost predicate IsCopy(code: seq<A.Line>, k: int, a: A.Lexeme, b: A.Lexeme) {
    && 0 <= k < |code| && code[k].Line? && code[k].cmd == "copy"
    && |code[k].args| == 3 && code[k].args[0] == a && code[k].args[2] == b
  }

  ghost predicate IsWrite(code: seq<A.Line>, k: int, a: A.Lexeme, b: A.Lexeme) {
    && 0 <= k < |code| && code[k].Line? && code[k].cmd == "write"
    && |code[k].args| == 3 && code[k].args[0] == a && code[k].args[2] == b
  }

  ghost predicate IsExec(code: seq<A.Line>, k: int) {
    0 <= k < |code| && code[k].Line? && code[k].cmd == "cpu_exec"
  }

  ghost predicate IsJump(code: seq<A.Line>, k: int, a: A.Lexeme) {
    && 0 <= k < |code| && code[k].Line? && code[k].cmd == "jump"
    && |code[k].args| == 1 && code[k].args[0] == a
  }

  // ---- What they compile to ----

  /** A program of the kernel in memory, as its own steps see it. */
  ghost predicate InKernel(p: Program, m: Machine, debug: bool) {
    && Accepted(p) && Valid(m) && m.kernel && KERNEL_START <= p.first
    && Loaded(m, TablesOf(p), ImageOf(p, debug)) && TablesOf(p).next < |m.cells| && InInt(|m.cells| + 1)
  }

  lemma KernelTables(p: Program, m: Machine, debug: bool)
    requires InKernel(p, m, debug)
    ensures var t := TablesOf(p);
            && t.first == p.first && t.next == t.first + FixedSize(t) + |t.order| && L.VariablesOk(t)
            && Base(m, t) == t.first && |Visible(m)| == |m.cells|
  {
    hide A.Pass1, A.Layout, Loaded, E.SymbolsOk, L.AllLexed;
    L.LayoutCorrect(p.lines, p.first, p.syms);
  }

  /** A line's cell decodes to what the line encodes. */
  lemma LineHolds(p: Program, m: Machine, debug: bool, k: nat)
    requires InKernel(p, m, debug) && k < |TablesOf(p).code|
    ensures var t := TablesOf(p);
            E.ProperCode(t.code[k]) && Holds(Visible(m), t.first + k, E.Encoded(t, t.code[k], p.syms))
  {
    hide Decode, E.Encodable, L.LiteralPlaced, A.OutputLine, A.Pass1, A.Layout, Accepted, E.Encoded, TablesOf;
    var t := TablesOf(p);
    KernelTables(p, m, debug);
    AcceptedCode(p, k);
    ImageLines(t, debug, p.syms, k);
    E.OutputDecodes(t, t.code[k], debug, p.syms);
    assert m.cells[t.first + k] == ImageOf(p, debug)[k];
  }

  /** A place that a lexeme names, for the lexemes above. */
  function At(t: A.Tables, syms: A.Symbols, lex: A.Lexeme): int {
    if lex.kind.Register? then A.NumericSymbol(lex.value, syms)
    else if lex.kind.Variable? then (if lex.value in t.variables then t.variables[lex.value] else -1)
    else if lex.value in t.labels then t.labels[lex.value] else -1
  }

  function OperandAt(t: A.Tables, syms: A.Symbols, lex: A.Lexeme): Operand {
    if lex.prefix == '*' then Indirect(At(t, syms, lex)) else Direct(At(t, syms, lex))
  }

  ghost predicate IsPlace(lex: A.Lexeme) {
    (lex.kind.Register? || lex.kind.Variable?) && (lex.prefix == '_' || lex.prefix == '*')
  }

  lemma CopyHolds(p: Program, m: Machine, debug: bool, k: int, a: A.Lexeme, b: A.Lexeme)
    requires InKernel(p, m, debug) && IsCopy(TablesOf(p).code, k, a, b) && IsPlace(a) && IsPlace(b)
    ensures var t := TablesOf(p);
            Holds(Visible(m), t.first + k, Copy(OperandAt(t, p.syms, a), OperandAt(t, p.syms, b)))
  {
    hide Decode, TablesOf, InKernel, Holds;
    LineHolds(p, m, debug, k);
  }

  lemma ExecHolds(p: Program, m: Machine, debug: bool, k: int)
    requires InKernel(p, m, debug) && IsExec(TablesOf(p).code, k)
    ensures Holds(Visible(m), TablesOf(p).first + k, Exec)
  {
    hide Decode, TablesOf, InKernel, Holds;
    LineHolds(p, m, debug, k);
  }

  lemma JumpHolds(p: Program, m: Machine, debug: bool, k: int, a: A.Lexeme)
    requires InKernel(p, m, debug) && IsJump(TablesOf(p).code, k, a)
    requires (a.kind.Variable? && a.prefix == '*') || (a.kind.Label? && a.prefix == '_')
    ensures var t := TablesOf(p);
            Holds(Visible(m), t.first + k, Jump(Always, OperandAt(t, p.syms, a)))
  {
    hide Decode, TablesOf, InKernel, Holds;
    LineHolds(p, m, debug, k);
  }

  /** A `write` is a copy from the literal's pool cell, which holds its value. */
  lemma WriteHolds(p: Program, m: Machine, debug: bool, k: int, a: A.Lexeme, b: A.Lexeme) returns (c: int)
    requires InKernel(p, m, debug) && IsWrite(TablesOf(p).code, k, a, b) && IsPlace(b)
    ensures var t := TablesOf(p);
            && A.PoolAddress(t, a) == Some(c) && t.first + |t.code| <= c < t.first + FixedSize(t)
            && Holds(Visible(m), t.first + k, Copy(Direct(c), OperandAt(t, p.syms, b)))
            && c < |m.cells| && Visible(m)[c] == E.Value(a, E.EnvOf(t), p.syms)
  {
    hide Decode, TablesOf, Holds, Accepted, ImageOf, E.Value, E.Encodable;
    var t := TablesOf(p);
    KernelTables(p, m, debug);
    LineHolds(p, m, debug, k);
    AcceptedCode(p, k);
    LiteralInImage(p, debug, a);
    c := A.PoolAddress(t, a).value;
    assert m.cells[c] == ImageOf(p, debug)[c - t.first];
  }

  lemma LiteralInImage(p: Program, debug: bool, lex: A.Lexeme)
    requires Accepted(p) && L.LiteralPlaced(TablesOf(p), lex, p.syms)
    ensures var t := TablesOf(p);
            && A.PoolAddress(t, lex).Some?
            && var k := A.PoolAddress(t, lex).value - t.first;
               |t.code| <= k < FixedSize(t) && ImageOf(p, debug)[k] == E.Value(lex, E.EnvOf(t), p.syms)
  {
    hide TablesOf, E.Value, A.Image;
    LiteralCell(TablesOf(p), lex, debug, p.syms);
  }

  // ---- The stack routines ----

  /** The built-in names that the routines use. */
  predicate KernelNames(syms: A.Symbols) {
    && A.NumericSymbol("REG_A", syms) == REG_A && A.NumericSymbol("REG_OP", syms) == REG_OP
    && A.NumericSymbol("REG_RES", syms) == REG_RES && A.NumericSymbol("REG_ERROR", syms) == REG_ERROR
    && A.NumericSymbol("FREE_MEMORY_END", syms) == FREE_MEMORY_END
    && A.NumericSymbol("PROGRAM_COUNTER", syms) == PROGRAM_COUNTER
    && A.NumericSymbol("OP_INCR", syms) == OP_INCR && A.NumericSymbol("OP_DECR", syms) == OP_DECR
  }

  /** Lines i .. i + 20 are the body of `sys_stack_push`. */
  ghost predicate PushSource(code: seq<A.Line>, i: int) {
    LowerSource(code, i) && ShrinkSource(code, i) && StoreSource(code, i) && LeaveSource(code, i)
  }

  ghost predicate LowerSource(code: seq<A.Line>, i: int) {
    && IsCopy(code, i, Reg("REG_A"), Named("sys_stack_backup_REG_A"))
    && IsCopy(code, i + 1, Named("sys_stack_ptr"), Reg("REG_A")) && IsWrite(code, i + 2, Op("OP_DECR"), Reg("REG_OP"))
    && IsExec(code, i + 3) && IsCopy(code, i + 4, Reg("REG_RES"), Named("sys_stack_ptr"))
  }

  ghost predicate ShrinkSource(code: seq<A.Line>, i: int) {
    && IsCopy(code, i + 5, Reg("FREE_MEMORY_END"), Reg("REG_A")) && IsExec(code, i + 6)
    && IsCopy(code, i + 7, Reg("REG_RES"), Reg("FREE_MEMORY_END"))
  }

  ghost predicate StoreSource(code: seq<A.Line>, i: int) {
    && IsCopy(code, i + 8, Named("sys_return"), Reg("REG_A")) && IsWrite(code, i + 9, Op("OP_INCR"), Reg("REG_OP"))
    && IsExec(code, i + 10) && IsCopy(code, i + 11, Reg("REG_RES"), Reg("REG_A")) && IsExec(code, i + 12)
    && IsCopy(code, i + 13, Reg("REG_RES"), Through("sys_stack_ptr"))
  }

  ghost predicate LeaveSource(code: seq<A.Line>, i: int) {
    && IsCopy(code, i + 14, Named("sys_stack_return"), Reg("REG_A")) && IsExec(code, i + 15)
    && IsCopy(code, i + 16, Reg("REG_RES"), Reg("REG_A")) && IsExec(code, i + 17)
    && IsCopy(code, i + 18, Reg("REG_RES"), Named("sys_stack_return"))
    && IsCopy(code, i + 19, Named("sys_stack_backup_REG_A"), Reg("REG_A"))
    && IsJump(code, i + 20, Through("sys_stack_return"))
  }

  /** Lines j .. j + 15 are the body of `sys_stack_pop`. */
  ghost predicate PopSource(code: seq<A.Line>, j: int) {
    TakeSource(code, j) && RaiseSource(code, j) && ResumeSource(code, j)
  }

  ghost predicate TakeSource(code: seq<A.Line>, j: int) {
    && IsCopy(code, j, Reg("REG_A"), Named("sys_stack_backup_REG_A"))
    && IsCopy(code, j + 1, Reg("REG_RES"), Named("sys_stack_backup_REG_RES"))
    && IsCopy(code, j + 2, Reg("REG_ERROR"), Named("sys_stack_backup_REG_ERROR"))
    && IsCopy(code, j + 3, Through("sys_stack_ptr"), Named("sys_stack_pop_jump"))
  }

  ghost predicate RaiseSource(code: seq<A.Line>, j: int) {
    && IsCopy(code, j + 4, Named("sys_stack_ptr"), Reg("REG_A")) && IsWrite(code, j + 5, Op("OP_INCR"), Reg("REG_OP"))
    && IsExec(code, j + 6) && IsCopy(code, j + 7, Reg("REG_RES"), Named("sys_stack_ptr"))
    && IsCopy(code, j + 8, Reg("FREE_MEMORY_END"), Reg("REG_A")) && IsWrite(code, j + 9, Op("OP_INCR"), Reg("REG_OP"))
    && IsExec(code, j + 10) && IsCopy(code, j + 11, Reg("REG_RES"), Reg("FREE_MEMORY_END"))
  }

  ghost predicate ResumeSource(code: seq<A.Line>, j: int) {
    && IsCopy(code, j + 12, Named("sys_stack_backup_REG_A"), Reg("REG_A"))
    && IsCopy(code, j + 13, Named("sys_stack_backup_REG_RES"), Reg("REG_RES"))
    && IsCopy(code, j + 14, Named("sys_stack_backup_REG_ERROR"), Reg("REG_ERROR"))
    && IsJump(code, j + 15, Through("sys_stack_pop_jump"))
  }

  function StackNames(): seq<string> {
    ["sys_return", "sys_stack_ptr", "sys_stack_return", "sys_stack_backup_REG_A", "sys_stack_backup_REG_RES",
     "sys_stack_backup_REG_ERROR", "sys_stack_pop_jump"]
  }

  /** The source declares the routines' variables and holds their bodies at lines of code i and j. */
  ghost predicate HasStack(p: Program, i: int, j: int) {
    && KernelNames(p.syms) && PushSource(L.CodeOf(p.lines), i) && PopSource(L.CodeOf(p.lines), j)
    && forall x :: x in StackNames() ==> x in L.VarsOf(p.lines)
  }

  /** The same in the compiler's tables. */
  ghost predicate InTables(p: Program, i: int, j: int) {
    && KernelNames(p.syms) && PushSource(TablesOf(p).code, i) && PopSource(TablesOf(p).code, j)
    && forall x :: x in StackNames() ==> x in TablesOf(p).order
  }

  lemma SourceInTables(p: Program, m: Machine, debug: bool, i: int, j: int)
    requires InKernel(p, m, debug) && HasStack(p, i, j)
    ensures InTables(p, i, j) && TablesOf(p).code == L.CodeOf(p.lines) && TablesOf(p).first == p.first
  {
    hide A.Pass1, A.Layout, Loaded, E.SymbolsOk, L.AllLexed, PushSource, PopSource;
    L.LayoutCorrect(p.lines, p.first, p.syms);
  }

  function VariableOf(p: Program, x: string): int {
    At(TablesOf(p), p.syms, Named(x))
  }

  function LiteralOf(p: Program, op: string): int {
    match A.PoolAddress(TablesOf(p), Op(op)) case None => -1 case Some(a) => a
  }

  /** Where the compiler put the routines. */
  function StackLayout(p: Program, i: int, j: int): S.Layout {
    S.Layout(TablesOf(p).first + i, TablesOf(p).first + j, LiteralOf(p, "OP_DECR"), LiteralOf(p, "OP_INCR"),
             TablesOf(p).first + FixedSize(TablesOf(p)),
             VariableOf(p, "sys_return"), VariableOf(p, "sys_stack_ptr"), VariableOf(p, "sys_stack_return"),
             VariableOf(p, "sys_stack_backup_REG_A"), VariableOf(p, "sys_stack_backup_REG_RES"),
             VariableOf(p, "sys_stack_backup_REG_ERROR"), VariableOf(p, "sys_stack_pop_jump"), TablesOf(p).next)
  }

  lemma VariableInRange(p: Program, m: Machine, debug: bool, x: string)
    requires InKernel(p, m, debug) && x in TablesOf(p).order
    ensures var t := TablesOf(p);
            t.first + FixedSize(t) <= VariableOf(p, x) < t.next
  {
    hide TablesOf, InKernel;
    KernelTables(p, m, debug);
    var t := TablesOf(p);
    var k :| 0 <= k < |t.order| && t.order[k] == x;
  }

  lemma VariablesDiffer(p: Program, m: Machine, debug: bool, x: string, y: string)
    requires InKernel(p, m, debug) && x in TablesOf(p).order && y in TablesOf(p).order && x != y
    ensures VariableOf(p, x) != VariableOf(p, y)
  {
    hide TablesOf, InKernel;
    KernelTables(p, m, debug);
    var t := TablesOf(p);
    var k :| 0 <= k < |t.order| && t.order[k] == x;
    var l :| 0 <= l < |t.order| && t.order[l] == y;
  }

  lemma StackNamesListed()
    ensures forall x :: x in StackNames() <==>
                          x in {"sys_return", "sys_stack_ptr", "sys_stack_return", "sys_stack_backup_REG_A",
                                "sys_stack_backup_REG_RES", "sys_stack_backup_REG_ERROR", "sys_stack_pop_jump"}
  {
  }

  lemma LayoutFits(p: Program, m: Machine, debug: bool, i: int, j: int)
    requires InKernel(p, m, debug) && InTables(p, i, j)
    requires A.PoolAddress(TablesOf(p), Op("OP_DECR")).Some? && A.PoolAddress(TablesOf(p), Op("OP_INCR")).Some?
    requires forall op :: op in {"OP_DECR", "OP_INCR"} ==>
                            TablesOf(p).first <= LiteralOf(p, op) < TablesOf(p).first + FixedSize(TablesOf(p))
    ensures S.LayoutOk(StackLayout(p, i, j))
  {
    hide TablesOf, InKernel, VariableOf, LiteralOf, PushSource, PopSource;
    StackNamesListed();
    KernelTables(p, m, debug);
    InKernelBounds(p, m, debug);
    SourceLines(TablesOf(p).code, i, j);
    forall x | x in StackNames()
      ensures S.IsVar(StackLayout(p, i, j), VariableOf(p, x))
    {
      VariableInRange(p, m, debug, x);
    }
    forall x, y | x in StackNames() && y in StackNames() && x != y
      ensures VariableOf(p, x) != VariableOf(p, y)
    {
      VariablesDiffer(p, m, debug, x, y);
    }
    NamesDiffer();
  }

  lemma InKernelBounds(p: Program, m: Machine, debug: bool)
    requires InKernel(p, m, debug)
    ensures KERNEL_START <= p.first && TablesOf(p).next < |m.cells| && InInt(|m.cells| + 1)
  {
  }

  lemma SourceLines(code: seq<A.Line>, i: int, j: int)
    requires PushSource(code, i) && PopSource(code, j)
    ensures 0 <= i && i + 20 < |code| && 0 <= j && j + 15 < |code|
  {
  }

  lemma NamesDiffer()
    ensures |"sys_return"| == 10 && |"sys_stack_ptr"| == 13 && |"sys_stack_return"| == 16
            && |"sys_stack_backup_REG_A"| == 22
    ensures |"sys_stack_backup_REG_RES"| == 24 && |"sys_stack_backup_REG_ERROR"| == 26 && |"sys_stack_pop_jump"| == 18
  {
  }

  lemma OpCell(p: Program, m: Machine, debug: bool, k: int, op: string)
    requires InKernel(p, m, debug) && KernelNames(p.syms) && op in {"OP_DECR", "OP_INCR"}
    requires IsWrite(TablesOf(p).code, k, Op(op), Reg("REG_OP"))
    ensures var t := TablesOf(p);
            && A.PoolAddress(t, Op(op)).Some? && t.first <= LiteralOf(p, op) < t.first + FixedSize(t)
            && LiteralOf(p, op) < |m.cells|
            && Holds(Visible(m), t.first + k, Cp(LiteralOf(p, op), REG_OP))
            && Visible(m)[LiteralOf(p, op)] == if op == "OP_DECR" then "3" else "2"
  {
    hide InKernel, TablesOf, Decode, Holds, IsWrite;
    var c := WriteHolds(p, m, debug, k, Op(op), Reg("REG_OP"));
    Numerals();
  }

  lemma LowerFromSource(p: Program, m: Machine, debug: bool, i: int, j: int)
    requires InKernel(p, m, debug) && KernelNames(p.syms) && LowerSource(TablesOf(p).code, i)
    ensures S.LowerCode(Visible(m), StackLayout(p, i, j))
  {
    hide InKernel, TablesOf, Decode, Holds, IsWrite, IsCopy, IsExec, At, LiteralOf;
    PlacesOf(p);
    CopyHolds(p, m, debug, i, Reg("REG_A"), Named("sys_stack_backup_REG_A"));
    CopyHolds(p, m, debug, i + 1, Named("sys_stack_ptr"), Reg("REG_A"));
    OpCell(p, m, debug, i + 2, "OP_DECR");
    ExecHolds(p, m, debug, i + 3);
    CopyHolds(p, m, debug, i + 4, Reg("REG_RES"), Named("sys_stack_ptr"));
  }

  /** The addresses of the registers used. */
  lemma PlacesOf(p: Program)
    requires KernelNames(p.syms)
    ensures At(TablesOf(p), p.syms, Reg("REG_A")) == REG_A && At(TablesOf(p), p.syms, Reg("REG_OP")) == REG_OP
    ensures At(TablesOf(p), p.syms, Reg("REG_RES")) == REG_RES && At(TablesOf(p), p.syms, Reg("REG_ERROR")) == REG_ERROR
    ensures At(TablesOf(p), p.syms, Reg("FREE_MEMORY_END")) == FREE_MEMORY_END
    ensures At(TablesOf(p), p.syms, Reg("PROGRAM_COUNTER")) == PROGRAM_COUNTER
    ensures forall x :: At(TablesOf(p), p.syms, Through(x)) == VariableOf(p, x)
  {
    hide TablesOf;
  }

  lemma ShrinkFromSource(p: Program, m: Machine, debug: bool, i: int)
    requires InKernel(p, m, debug) && KernelNames(p.syms) && ShrinkSource(TablesOf(p).code, i)
    ensures var v, a := Visible(m), TablesOf(p).first + i;
            && Holds(v, a + 5, Cp(FREE_MEMORY_END, REG_A)) && Holds(v, a + 6, Exec)
            && Holds(v, a + 7, Cp(REG_RES, FREE_MEMORY_END))
  {
    hide InKernel, TablesOf, Decode, Holds, IsCopy, IsExec, At;
    PlacesOf(p);
    CopyHolds(p, m, debug, i + 5, Reg("FREE_MEMORY_END"), Reg("REG_A"));
    ExecHolds(p, m, debug, i + 6);
    CopyHolds(p, m, debug, i + 7, Reg("REG_RES"), Reg("FREE_MEMORY_END"));
  }

  lemma StoreFromSource(p: Program, m: Machine, debug: bool, i: int, j: int)
    requires InKernel(p, m, debug) && KernelNames(p.syms) && StoreSource(TablesOf(p).code, i)
    ensures S.StoreCode(Visible(m), StackLayout(p, i, j))
  {
    hide InKernel, TablesOf, Decode, Holds, IsWrite, IsCopy, IsExec, At, LiteralOf;
    PlacesOf(p);
    CopyHolds(p, m, debug, i + 8, Named("sys_return"), Reg("REG_A"));
    OpCell(p, m, debug, i + 9, "OP_INCR");
    ExecHolds(p, m, debug, i + 10);
    CopyHolds(p, m, debug, i + 11, Reg("REG_RES"), Reg("REG_A"));
    ExecHolds(p, m, debug, i + 12);
    CopyHolds(p, m, debug, i + 13, Reg("REG_RES"), Through("sys_stack_ptr"));
  }

  lemma LeaveFromSource(p: Program, m: Machine, debug: bool, i: int, j: int)
    requires InKernel(p, m, debug) && KernelNames(p.syms) && LeaveSource(TablesOf(p).code, i)
    ensures S.LeaveCode(Visible(m), StackLayout(p, i, j))
  {
    hide InKernel, TablesOf, Decode, Holds, IsJump, IsCopy, IsExec, At, LiteralOf;
    PlacesOf(p);
    CopyHolds(p, m, debug, i + 14, Named("sys_stack_return"), Reg("REG_A"));
    ExecHolds(p, m, debug, i + 15);
    CopyHolds(p, m, debug, i + 16, Reg("REG_RES"), Reg("REG_A"));
    ExecHolds(p, m, debug, i + 17);
    CopyHolds(p, m, debug, i + 18, Reg("REG_RES"), Named("sys_stack_return"));
    CopyHolds(p, m, debug, i + 19, Named("sys_stack_backup_REG_A"), Reg("REG_A"));
    JumpHolds(p, m, debug, i + 20, Through("sys_stack_return"));
  }

  lemma TakeFromSource(p: Program, m: Machine, debug: bool, i: int, j: int)
    requires InKernel(p, m, debug) && KernelNames(p.syms) && TakeSource(TablesOf(p).code, j)
    ensures S.TakeCode(Visible(m), StackLayout(p, i, j))
  {
    hide InKernel, TablesOf, Decode, Holds, IsCopy, At, LiteralOf;
    PlacesOf(p);
    CopyHolds(p, m, debug, j, Reg("REG_A"), Named("sys_stack_backup_REG_A"));
    CopyHolds(p, m, debug, j + 1, Reg("REG_RES"), Named("sys_stack_backup_REG_RES"));
    CopyHolds(p, m, debug, j + 2, Reg("REG_ERROR"), Named("sys_stack_backup_REG_ERROR"));
    CopyHolds(p, m, debug, j + 3, Through("sys_stack_ptr"), Named("sys_stack_pop_jump"));
  }

  lemma RaiseFromSource(p: Program, m: Machine, debug: bool, i: int, j: int)
    requires InKernel(p, m, debug) && KernelNames(p.syms) && RaiseSource(TablesOf(p).code, j)
    ensures S.RaiseCode(Visible(m), StackLayout(p, i, j))
  {
    hide InKernel, TablesOf, Decode, Holds, IsCopy, IsWrite, IsExec, At, LiteralOf;
    PlacesOf(p);
    CopyHolds(p, m, debug, j + 4, Named("sys_stack_ptr"), Reg("REG_A"));
    OpCell(p, m, debug, j + 5, "OP_INCR");
    ExecHolds(p, m, debug, j + 6);
    CopyHolds(p, m, debug, j + 7, Reg("REG_RES"), Named("sys_stack_ptr"));
    CopyHolds(p, m, debug, j + 8, Reg("FREE_MEMORY_END"), Reg("REG_A"));
    OpCell(p, m, debug, j + 9, "OP_INCR");
    ExecHolds(p, m, debug, j + 10);
    CopyHolds(p, m, debug, j + 11, Reg("REG_RES"), Reg("FREE_MEMORY_END"));
  }

  lemma ResumeFromSource(p: Program, m: Machine, debug: bool, i: int, j: int)
    requires InKernel(p, m, debug) && KernelNames(p.syms) && ResumeSource(TablesOf(p).code, j)
    ensures S.ResumeCode(Visible(m), StackLayout(p, i, j))
  {
    hide InKernel, TablesOf, Decode, Holds, IsCopy, IsJump, At, LiteralOf;
    PlacesOf(p);
    CopyHolds(p, m, debug, j + 12, Named("sys_stack_backup_REG_A"), Reg("REG_A"));
    CopyHolds(p, m, debug, j + 13, Named("sys_stack_backup_REG_RES"), Reg("REG_RES"));
    CopyHolds(p, m, debug, j + 14, Named("sys_stack_backup_REG_ERROR"), Reg("REG_ERROR"));
    JumpHolds(p, m, debug, j + 15, Through("sys_stack_pop_jump"));
  }

  /** The compiled stack routines are the code that the stack statements are about. */
  lemma StackIsLinked(p: Program, m: Machine, debug: bool, i: int, j: int)
    requires InKernel(p, m, debug) && HasStack(p, i, j)
    ensures S.Linked(Visible(m), StackLayout(p, i, j))
  {
    hide InKernel, TablesOf, LowerSource, StoreSource, LeaveSource, TakeSource, RaiseSource, ResumeSource,
      ShrinkSource, S.LowerCode, S.StoreCode, S.LeaveCode, S.TakeCode, S.RaiseCode, S.ResumeCode, S.LayoutOk, Holds,
      LiteralOf, VariableOf;
    SourceInTables(p, m, debug, i, j);
    LowerFromSource(p, m, debug, i, j);
    ShrinkFromSource(p, m, debug, i);
    StoreFromSource(p, m, debug, i, j);
    LeaveFromSource(p, m, debug, i, j);
    TakeFromSource(p, m, debug, i, j);
    RaiseFromSource(p, m, debug, i, j);
    ResumeFromSource(p, m, debug, i, j);
    StackConstants(p, m, debug, i);
    LayoutFits(p, m, debug, i, j);
    InKernelBounds(p, m, debug);
    BigEnough(p, m, debug);
  }

  lemma BigEnough(p: Program, m: Machine, debug: bool)
    requires InKernel(p, m, debug)
    ensures MIN_RAM_SIZE < |m.cells| == |Visible(m)|
  {
  }

  lemma StackConstants(p: Program, m: Machine, debug: bool, i: int)
    requires InKernel(p, m, debug) && KernelNames(p.syms) && LowerSource(TablesOf(p).code, i)
             && StoreSource(TablesOf(p).code, i)
    ensures var t := TablesOf(p);
            && A.PoolAddress(t, Op("OP_DECR")).Some? && A.PoolAddress(t, Op("OP_INCR")).Some?
            && (forall op :: op in {"OP_DECR", "OP_INCR"} ==>
                               t.first <= LiteralOf(p, op) < t.first + FixedSize(t)
                                 && 0 <= LiteralOf(p, op) < |m.cells|)
            && Visible(m)[LiteralOf(p, "OP_DECR")] == "3" && Visible(m)[LiteralOf(p, "OP_INCR")] == "2"
  {
    hide TablesOf, Loaded, Accepted, Decode, Holds, IsWrite, IsCopy, IsExec, LiteralOf;
    KernelTables(p, m, debug);
    OpCell(p, m, debug, i + 2, "OP_DECR");
    OpCell(p, m, debug, i + 9, "OP_INCR");
  }

  /** The label's line is in front of line of code k. */
  ghost predicate LabelAt(p: Program, x: string, k: int) {
    LabelLine(p.lines, x).Some? && L.Position(p.lines, LabelLine(p.lines, x).value) == k
  }

  lemma LabelInTables(p: Program, x: string, k: int)
    requires Accepted(p) && LabelAt(p, x, k)
    ensures x in TablesOf(p).labels && TablesOf(p).labels[x] == p.first + k
  {
    hide A.Pass1, A.Layout, E.SymbolsOk, L.AllLexed, L.Position;
    TablesAgree(p);
    var i := LabelLine(p.lines, x).value;
    assert p.lines[i].args[0].value in LabelNames(p.lines);
  }

  /** A call site by the calling convention, and a routine that its label names and that starts with
      the call of the push routine, are a call in the machine code. */
  lemma CallIsCompiled(p: Program, m: Machine, debug: bool, i: int, j: int, site: int, entry: int, callee: string)
    requires InKernel(p, m, debug) && HasStack(p, i, j)
    requires var code := L.CodeOf(p.lines);
             && IsCopy(code, site, Reg("PROGRAM_COUNTER"), Named("sys_return")) && IsJump(code, site + 1, Label(callee))
             && IsCopy(code, entry, Reg("PROGRAM_COUNTER"), Named("sys_stack_return"))
             && IsJump(code, entry + 1, Label("sys_stack_push"))
    requires LabelAt(p, callee, entry) && LabelAt(p, "sys_stack_push", i)
    ensures S.CallCode(Visible(m), StackLayout(p, i, j), p.first + site, p.first + entry)
  {
    hide InKernel, TablesOf, Decode, Holds, LiteralOf, PushSource, PopSource, LabelAt, Accepted;
    assert Accepted(p) by { KernelAccepted(p, m, debug); }
    SourceInTables(p, m, debug, i, j);
    LabelInTables(p, callee, entry);
    LabelInTables(p, "sys_stack_push", i);
    PlacesOf(p);
    KernelTables(p, m, debug);
    InKernelBounds(p, m, debug);
    CopyHolds(p, m, debug, site, Reg("PROGRAM_COUNTER"), Named("sys_return"));
    JumpHolds(p, m, debug, site + 1, Label(callee));
    CopyHolds(p, m, debug, entry, Reg("PROGRAM_COUNTER"), Named("sys_stack_return"));
    JumpHolds(p, m, debug, entry + 1, Label("sys_stack_push"));
  }

  lemma KernelAccepted(p: Program, m: Machine, debug: bool)
    requires InKernel(p, m, debug)
    ensures Accepted(p)
  {
  }
}
