/** The two-pass assembler on lexed lines: syntax patterns, the tables of the first pass, the
    address assignment and the emitted text. `Compiler.dfy` holds the class that fills the
    tables in place. */
module Assembler {
  import opened Wrappers
  import opened Text

  datatype Kind = KeywordTo | Number | Str | Register | Operation | SysCall | Color | Mode
                | Variable | Label | Name | Comment | Unlexed

  /** `prefix` is `*`, `@`, or `_` for none. */
  datatype Lexeme = Lexeme(kind: Kind, prefix: char, value: string)

  /** A lexed source line: its command, the lexemes behind it, and what is left after them. */
  datatype Line = Blank | Line(cmd: string, args: seq<Lexeme>, tail: Lexeme)

  /** Built-in names: the numeric ones (registers, operations, system calls, colours) and the
      textual ones (keyboard modes). */
  datatype Symbols = Symbols(numeric: map<string, int>, texts: map<string, string>)

  // ---- Syntax ----

  function Plain(k: Kind): (char, Kind) { ('_', k) }
  function Starred(k: Kind): (char, Kind) { ('*', k) }

  function JumpTargets(): set<(char, Kind)> {
    {Plain(Number), Starred(Number), Plain(Label), Starred(Label), Plain(Variable), Starred(Variable),
        Starred(Register)}
  }

  function Places(): set<(char, Kind)> {
    {Plain(Number), Starred(Number), Plain(Register), Starred(Register), Plain(Variable), Starred(Variable)}
  }

  function Values(): set<(char, Kind)> {
    {Plain(Str), Plain(Number), Plain(Operation), Plain(SysCall), Plain(Color), Plain(Mode), Plain(Label)}
  }

  predicate IsJump(cmd: string) {
    cmd == "jump" || cmd == "jump_if" || cmd == "jump_if_not" || cmd == "jump_err"
  }

  predicate IsMark(cmd: string) {
    cmd == "DEBUG_ON" || cmd == "DEBUG_OFF"
  }

  predicate IsKnown(cmd: string) {
    cmd == "var" || cmd == "label" || cmd == "cpu_exec" || IsMark(cmd) || IsJump(cmd) || cmd == "write" || cmd == "copy"
  }

  /** The alternatives for each argument of a command. */
  function Pattern(cmd: string): seq<set<(char, Kind)>> {
    if cmd == "var" || cmd == "label" then [{Plain(Name)}]
    else if IsJump(cmd) then [JumpTargets()]
    else if cmd == "write" then [Values(), {Plain(KeywordTo)}, Places()]
    else if cmd == "copy" then [Places() + {('@', Variable)}, {Plain(KeywordTo)}, Places()]
    else []
  }

  predicate Fits(lex: Lexeme, alternatives: set<(char, Kind)>) {
    (lex.prefix, lex.kind) in alternatives
  }

  predicate Matches(line: Line)
    requires line.Line?
  {
    && |line.args| == |Pattern(line.cmd)|
    && (forall i :: 0 <= i < |line.args| ==> Fits(line.args[i], Pattern(line.cmd)[i]))
    && line.tail.kind == Comment && line.tail.prefix == '_'
  }

  /** Lines that become an instruction. */
  predicate IsCode(line: Line) {
    line.Line? && line.cmd != "var" && line.cmd != "label"
  }

  // ---- First pass ----

  datatype Constant = Constant(raw: string, text: string, addr: int)

  datatype Tables = Tables(
    first: int,
    next: int,
    labels: map<string, int>,
    variables: map<string, int>,
    order: seq<string>,
    constants: seq<Constant>,
    index: map<string, nat>,
    code: seq<Line>,
    errors: nat)

  function Empty(first: int): Tables {
    Tables(first, first, map[], map[], [], [], map[], [], 0)
  }

  function NumericSymbol(name: string, syms: Symbols): int {
    if name in syms.numeric then syms.numeric[name] else -1
  }

  function TextSymbol(name: string, syms: Symbols): string {
    if name in syms.texts then syms.texts[name] else ""
  }

  /** The key under which the value of a `write` is pooled. */
  function RawValue(lex: Lexeme): string {
    match lex.kind
    case Str => "\"" + lex.value + "\""
    case Label => "LABEL:" + lex.value
    case Number => lex.value
    case Operation => lex.value
    case SysCall => lex.value
    case Color => lex.value
    case Mode => lex.value
    case _ => ""
  }

  /** The pooled text in the first pass; labels are filled in later. */
  function PooledText(lex: Lexeme, syms: Symbols): string {
    match lex.kind
    case Str => lex.value
    case Number => lex.value
    case Operation => PrintInt(NumericSymbol(lex.value, syms))
    case SysCall => PrintInt(NumericSymbol(lex.value, syms))
    case Color => PrintInt(NumericSymbol(lex.value, syms))
    case Mode => TextSymbol(lex.value, syms)
    case _ => ""
  }

  function Pool(t: Tables, lex: Lexeme, syms: Symbols): Tables {
    var raw := RawValue(lex);
    if raw == "" || raw in t.index then t
    else t.(constants := t.constants + [Constant(raw, PooledText(lex, syms), 0)],
        index := t.index[raw := |t.constants|])
  }

  function AddCode(t: Tables, line: Line, syms: Symbols): Tables
    requires line.Line?
  {
    var u := t.(code := t.code + [line], next := t.next + 1);
    if line.cmd == "write" && |line.args| > 0 then Pool(u, line.args[0], syms) else u
  }

  function Reject(t: Tables): Tables {
    t.(errors := t.errors + 1)
  }

  function ProcessLine(t: Tables, line: Line, syms: Symbols): Tables {
    if line.Blank? then t
    else if !IsKnown(line.cmd) || !Matches(line) then Reject(t)
    else if line.cmd == "var" then
      var name := line.args[0].value;
      if name in t.variables then Reject(t)
      else t.(variables := t.variables[name := 0], order := t.order + [name])
    else if line.cmd == "label" then
      var name := line.args[0].value;
      if name in t.labels then Reject(t) else t.(labels := t.labels[name := t.next])
    else AddCode(t, line, syms)
  }

  function Pass1(lines: seq<Line>, first: int, syms: Symbols): Tables {
    if lines == [] then Empty(first)
    else ProcessLine(Pass1(lines[..|lines| - 1], first, syms), lines[|lines| - 1], syms)
  }

  // ---- Address assignment ----

  function IsLabelKey(raw: string): bool {
    |raw| >= 6 && raw[..6] == "LABEL:"
  }

  function Placed(c: Constant, addr: int, labels: map<string, int>): Constant {
    var text :=
      if IsLabelKey(c.raw) && c.raw[6..] in labels then PrintInt(labels[c.raw[6..]]) else c.text;
    Constant(c.raw, text, addr)
  }

  function PlaceConstants(cs: seq<Constant>, start: int, labels: map<string, int>): (r: seq<Constant>)
    ensures |r| == |cs|
    ensures forall i :: 0 <= i < |cs| ==> r[i] == Placed(cs[i], start + i, labels)
  {
    seq(|cs|, i requires 0 <= i < |cs| => Placed(cs[i], start + i, labels))
  }

  function PlaceVariables(vars: map<string, int>, order: seq<string>, start: int): (r: map<string, int>)
    ensures order != [] || r == vars
  {
    if order == [] then vars
    else PlaceVariables(vars, order[..|order| - 1], start)[order[|order| - 1] := start + |order| - 1]
  }

  /** Constants follow the code and variables follow the constants. */
  function Layout(t: Tables): Tables {
    t.(constants := PlaceConstants(t.constants, t.next, t.labels),
       variables := PlaceVariables(t.variables, t.order, t.next + |t.constants|),
       next := t.next + |t.constants| + |t.order|)
  }

  // ---- Second pass ----

  /** The emitted text of a lexeme, and whether it is in error. */
  datatype Emitted = Emitted(text: string, ok: bool)

  function Opcode(cmd: string): string {
    if cmd == "copy" || cmd == "write" then "1"
    else if cmd == "jump" then "2"
    else if cmd == "jump_if" then "3"
    else if cmd == "jump_if_not" then "4"
    else if cmd == "jump_err" then "5"
    else if cmd == "cpu_exec" then "0"
    else if IsMark(cmd) then cmd
    else ""
  }

  function PrefixText(lex: Lexeme): string {
    if lex.prefix == '_' then "" else [lex.prefix]
  }

  function PoolAddress(t: Tables, lex: Lexeme): Option<int> {
    var raw := RawValue(lex);
    if raw in t.index && t.index[raw] < |t.constants| then Some(t.constants[t.index[raw]].addr) else None
  }

  function EmitLexeme(t: Tables, lex: Lexeme, written: bool, syms: Symbols): Emitted {
    match lex.kind
    case Str =>
      (match PoolAddress(t, lex) case None => Emitted("", true) case Some(a) => Emitted(PrintInt(a), true))
    case Label =>
      if written then
        (match PoolAddress(t, lex) case None => Emitted("", true) case Some(a) => Emitted(PrintInt(a), true))
      else if lex.value in t.labels then Emitted(PrintInt(t.labels[lex.value]), true)
      else Emitted("", false)
    case Variable =>
      if lex.value in t.variables then Emitted(PrefixText(lex) + PrintInt(t.variables[lex.value]), true)
      else Emitted("", false)
    case KeywordTo => Emitted("", true)
    case Name => Emitted("", true)
    case Comment => Emitted("", true)
    case Unlexed => Emitted("", true)
    case Number =>
      if written && PoolAddress(t, lex).Some? then Emitted(PrintInt(PoolAddress(t, lex).value), true)
      else Emitted(PrefixText(lex) + lex.value, true)
    case _ =>
      if written && PoolAddress(t, lex).Some? then Emitted(PrintInt(PoolAddress(t, lex).value), true)
      else if lex.value in syms.numeric then Emitted(PrefixText(lex) + PrintInt(syms.numeric[lex.value]), true)
      else if lex.value in syms.texts then Emitted(PrefixText(lex) + syms.texts[lex.value], true)
      else Emitted("", false)
  }

  function Glue(text: string, more: string): string {
    if text != "" && more != "" then text + " " + more else text + more
  }

  /** The instruction text of a line: opcode and argument texts, blank-separated. */
  function EmitArgs(t: Tables, line: Line, n: nat, syms: Symbols): string
    requires line.Line? && n <= |line.args|
  {
    if n == 0 then Opcode(line.cmd)
    else Glue(EmitArgs(t, line, n - 1, syms), EmitLexeme(t, line.args[n - 1], line.cmd == "write" && n == 1, syms).text)
  }

  function Emit(t: Tables, line: Line, syms: Symbols): string
    requires line.Line?
  {
    EmitArgs(t, line, |line.args|, syms)
  }

  predicate EmitsCleanly(t: Tables, line: Line, syms: Symbols)
    requires line.Line?
  {
    forall i :: 0 <= i < |line.args| ==> EmitLexeme(t, line.args[i], line.cmd == "write" && i == 0, syms).ok
  }

  function DebugLexeme(lex: Lexeme, first: bool): string {
    match lex.kind
    case KeywordTo => "=>"
    case Number => if first then "\"" + lex.value + "\"" else PrefixText(lex) + lex.value
    case Str => "\"" + lex.value + "\""
    case Label => PrefixText(lex) + "lbl:" + lex.value
    case Variable => PrefixText(lex) + "var:" + lex.value
    case Name => ""
    case Comment => ""
    case Unlexed => ""
    case _ => PrefixText(lex) + lex.value
  }

  function DebugArgs(line: Line, n: nat): string
    requires line.Line? && n <= |line.args|
  {
    if n == 0 then Glue("# ", line.cmd) else Glue(DebugArgs(line, n - 1), DebugLexeme(line.args[n - 1], n == 1))
  }

  function HashAt(s: string): (n: nat)
    ensures n <= |s| && (n < |s| ==> s[n] == '#')
    ensures forall i :: 0 <= i < n ==> s[i] != '#'
  {
    if s == "" || s[0] == '#' then 0 else 1 + HashAt(s[1..])
  }

  function Spaces(n: nat): (s: string)
    ensures |s| == n && forall i :: 0 <= i < n ==> s[i] == ' '
  {
    seq(n, i => ' ')
  }

  /** With debug information the source is appended as a comment that starts in column 15. */
  function WithDebug(text: string, note: string): string {
    var s := text + " " + note;
    var h := HashAt(s);
    if h < |s| && h < 15 then s[..h] + Spaces(15 - h) + s[h..] else s
  }

  function OutputLine(t: Tables, line: Line, debug: bool, syms: Symbols): string
    requires line.Line?
  {
    if debug then WithDebug(Emit(t, line, syms), DebugArgs(line, |line.args|)) else Emit(t, line, syms)
  }

  ghost predicate CodeLines(code: seq<Line>) {
    forall i :: 0 <= i < |code| ==> code[i].Line?
  }

  /** The written image: code, constants, and one empty cell per variable. */
  function Image(t: Tables, debug: bool, syms: Symbols): (r: seq<string>)
    requires CodeLines(t.code)
    ensures |r| == |t.code| + |t.constants| + |t.order|
    ensures forall i :: 0 <= i < |t.code| ==> r[i] == OutputLine(t, t.code[i], debug, syms)
    ensures forall i :: 0 <= i < |t.constants| ==> r[|t.code| + i] == t.constants[i].text
    ensures forall i :: |t.code| + |t.constants| <= i < |r| ==> r[i] == ""
  {
    seq(|t.code|, i requires 0 <= i < |t.code| => OutputLine(t, t.code[i], debug, syms))
    + seq(|t.constants|, i requires 0 <= i < |t.constants| => t.constants[i].text)
    + seq(|t.order|, i => "")
  }
}
