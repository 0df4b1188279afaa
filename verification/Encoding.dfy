/** The text encoding of instructions: what the CPU decodes from an emitted line is what the
    source line means, with or without the appended debug comment. */
module Encoding {
  import opened Wrappers
  import opened Text
  import opened Hardware
  import Columns
  import A = Assembler

  /** Where labels and variables live. */
  datatype Env = Env(labels: map<string, int>, variables: map<string, int>)

  ghost predicate NumberText(s: string) {
    exists neg: bool, d: string :: NumberParts(s, neg, d)
  }

  ghost predicate NumberParts(s: string, neg: bool, d: string) {
    d != "" && AllDigits(d) && s == if neg then "-" + d else d
  }

  /** What the lexer guarantees: numbers are number texts, names are known built-in names. */
  ghost predicate Lexed(lex: A.Lexeme, syms: A.Symbols) {
    match lex.kind
    case Number => NumberText(lex.value)
    case Register => lex.value in syms.numeric
    case Operation => lex.value in syms.numeric
    case SysCall => lex.value in syms.numeric
    case Color => lex.value in syms.numeric
    case Mode => lex.value in syms.texts && lex.value !in syms.numeric
    case _ => true
  }

  ghost predicate SymbolName(s: string) {
    s != "" && s[0] != '"' && !NumberText(s) && !A.IsLabelKey(s)
  }

  ghost predicate SymbolsOk(syms: A.Symbols) {
    && (forall name :: name in syms.numeric ==> InInt(syms.numeric[name]) && SymbolName(name))
    && (forall name :: name in syms.texts ==> SymbolName(name))
  }

  ghost predicate LineLexed(line: A.Line, syms: A.Symbols) {
    line.Line? ==> forall i :: 0 <= i < |line.args| ==> Lexed(line.args[i], syms)
  }

  // ---- The meaning of a source line ----

  function PlaceAt(prefix: char, a: Option<int>): Operand {
    if prefix == '*' then (match a case None => JunkIndirect case Some(n) => Indirect(n))
    else match a case None => Junk case Some(n) => Direct(n)
  }

  function AddressOf(lex: A.Lexeme, env: Env, syms: A.Symbols): Option<int> {
    match lex.kind
    case Number => Stoi(lex.value)
    case Register => Some(A.NumericSymbol(lex.value, syms))
    case Variable => Some(if lex.value in env.variables then env.variables[lex.value] else -1)
    case Label => Some(if lex.value in env.labels then env.labels[lex.value] else -1)
    case _ => None
  }

  /** A cell named by a number, a register or a variable; `*` goes through the cell, and `@` in
      front of a variable is the text of its address. */
  function Place(lex: A.Lexeme, env: Env, syms: A.Symbols): Operand {
    var a := AddressOf(lex, env, syms);
    if lex.prefix == '@' then Literal(if a.Some? then PrintInt(a.value) else "")
    else PlaceAt(lex.prefix, a)
  }

  /** A jump target; a label is a position in the code, with or without a star in front. */
  function Target(lex: A.Lexeme, env: Env, syms: A.Symbols): Operand {
    if lex.kind.Label? then PlaceAt('_', AddressOf(lex, env, syms)) else Place(lex, env, syms)
  }

  /** The text that `write` stores. */
  function Value(lex: A.Lexeme, env: Env, syms: A.Symbols): string {
    match lex.kind
    case Str => lex.value
    case Number => lex.value
    case Label => if lex.value in env.labels then PrintInt(env.labels[lex.value]) else ""
    case Mode => A.TextSymbol(lex.value, syms)
    case _ => PrintInt(A.NumericSymbol(lex.value, syms))
  }

  function JumpCondition(cmd: string): Condition {
    if cmd == "jump_if" then IfTrue else if cmd == "jump_if_not" then IfFalse
    else if cmd == "jump_err" then IfError else Always
  }

  /** What a code line does, with literals as values and names resolved by the environment. */
  function Meaning(line: A.Line, env: Env, syms: A.Symbols): Instr
    requires line.Line? && A.Matches(line) && A.IsKnown(line.cmd) && A.IsCode(line)
  {
    if line.cmd == "cpu_exec" then Exec
    else if A.IsMark(line.cmd) then DebugMark
    else if line.cmd == "copy" then Copy(Place(line.args[0], env, syms), Place(line.args[2], env, syms))
    else if line.cmd == "write" then Copy(Literal(Value(line.args[0], env, syms)), Place(line.args[2], env, syms))
    else Jump(JumpCondition(line.cmd), Target(line.args[0], env, syms))
  }

  // ---- Reading numbers and operands back ----

  lemma NumberTextFacts(s: string)
    requires NumberText(s)
    ensures s != "" && forall i :: 0 <= i < |s| ==> (IsDigit(s[i]) || s[i] == '-') && !IsSpace(s[i])
  {
  }

  /** Trailing text that does not start with a digit does not change the number that is read. */
  lemma ReadWithSuffix(s: string, rest: string)
    requires NumberText(s) && (rest == "" || !IsDigit(rest[0]))
    ensures Stoi(s + rest) == Stoi(s)
    ensures ReadInt(s).Some? ==> ReadInt(s + rest) == Some((ReadInt(s).value.0, rest))
  {
    hide ReadInt, AllDigits;
    var neg, d :| NumberParts(s, neg, d);
    ReadSigned(neg, d, rest);
    ReadSigned(neg, d, "");
    assert s + "" == s;
  }

  lemma PrintIsNumberText(n: int)
    ensures NumberText(PrintInt(n))
  {
    assert NumberParts(PrintInt(n), n < 0, PrintNat(if n < 0 then -n else n));
  }

  /** An operand text: a prefix and a number. */
  function Pre(prefix: char): string {
    if prefix == '_' then "" else [prefix]
  }

  function Parsed(prefix: char, v: string): Operand {
    if prefix == '@' then Literal(v) else PlaceAt(prefix, Stoi(v))
  }

  predicate IsPrefix(p: char) {
    p == '_' || p == '*' || p == '@'
  }

  lemma ParseOperandText(prefix: char, v: string, rest: string)
    requires IsPrefix(prefix) && NumberText(v)
    requires rest == "" || (prefix != '@' && !IsDigit(rest[0]))
    ensures ParseOperand(Pre(prefix) + v + rest) == Parsed(prefix, v)
  {
    hide NumberText, Stoi;
    NumberTextFacts(v);
    var s := Pre(prefix) + v + rest;
    if prefix == '_' {
      assert s == v + rest && s[0] == v[0];
      ReadWithSuffix(v, rest);
    } else {
      assert s[1..] == v + rest;
      if prefix == '*' {
        ReadWithSuffix(v, rest);
      } else {
        assert v + rest == v;
      }
    }
  }

  lemma OperandTextIsToken(prefix: char, v: string)
    requires IsPrefix(prefix) && NumberText(v)
    ensures var s := Pre(prefix) + v; s != "" && forall i :: 0 <= i < |s| ==> !IsSpace(s[i])
  {
    NumberTextFacts(v);
  }

  ghost predicate IsSuffix(rest: string) {
    rest == "" || rest[0] == ' '
  }

  lemma OpcodeReads(code: int, rest: string)
    requires 0 <= code < 10 && IsSuffix(rest)
    ensures ReadInt(PrintInt(code) + rest) == Some((code, rest)) && |PrintInt(code)| == 1 && IsDigit(PrintInt(code)[0])
  {
    ReadPrinted(code, rest);
  }

  lemma NotMark(s: string)
    requires s != "" && IsDigit(s[0])
    ensures !Columns.StartsWith(s, "DEBUG_ON") && !Columns.StartsWith(s, "DEBUG_OFF")
  {
    if |s| >= 8 { assert s[..8][0] == s[0]; }
    if |s| >= 9 { assert s[..9][0] == s[0]; }
  }

  lemma SpaceIsBlank()
    ensures IsSpace(' ') && IsDigit('1')
  {
  }

  lemma OneIsPrinted()
    ensures PrintInt(1) == "1"
  {
  }

  lemma DecodeCopyText(p: char, v: string, q: char, w: string, rest: string)
    requires IsPrefix(p) && NumberText(v) && IsPrefix(q) && NumberText(w) && IsSuffix(rest)
    ensures Decode("1 " + Pre(p) + v + " " + Pre(q) + w + rest) == Copy(Parsed(p, v), Parsed(q, w))
  {
    var a, b := Pre(p) + v, Pre(q) + w;
    var line := "1 " + Pre(p) + v + " " + Pre(q) + w + rest;
    hide NumberText, Stoi, IsSpace, Pre, ReadToken, ReadInt, ParseOperand, Parsed, PrintInt, Columns.StartsWith;
    OperandTextIsToken(p, v);
    OperandTextIsToken(q, w);
    assert IsSpace(' ') by { SpaceIsBlank(); }
    var tail := " " + b + rest;
    assert PrintInt(1) == "1" by { OneIsPrinted(); }
    OpcodeReads(1, " " + a + tail);
    assert line[0] == '1';
    assert line == "1" + (" " + a + tail);
    NotMark(line);
    ReadTokenOf(a, tail);
    ReadTokenOf(b, rest);
    assert a == a + "" && b == b + "";
    ParseOperandText(p, v, "");
    ParseOperandText(q, w, "");
  }

  function JumpCode(cond: Condition): int {
    match cond case Always => 2 case IfTrue => 3 case IfFalse => 4 case IfError => 5
  }

  lemma DecodeJumpText(cond: Condition, p: char, v: string, rest: string)
    requires IsPrefix(p) && p != '@' && NumberText(v) && IsSuffix(rest)
    ensures Decode(PrintInt(JumpCode(cond)) + " " + Pre(p) + v + rest) == Jump(cond, Parsed(p, v))
  {
    hide NumberText, Stoi, IsSpace, Pre, ReadInt, ParseOperand, Parsed, PrintInt, Columns.StartsWith;
    var code := PrintInt(JumpCode(cond));
    var tail := Pre(p) + v + rest;
    var line := code + " " + Pre(p) + v + rest;
    OpcodeReads(JumpCode(cond), " " + tail);
    assert line == code + (" " + tail);
    NotMark(line);
    assert line[0] == code[0] && line[1] == ' ' && line[2..] == tail;
    assert FirstBlank(line) == 1;
    ParseOperandText(p, v, rest);
  }

  lemma DecodeExecText(rest: string)
    requires IsSuffix(rest)
    ensures Decode("0" + rest) == Exec
  {
    OpcodeReads(0, rest);
    assert PrintInt(0) == "0";
    NotMark("0" + rest);
  }

  lemma DecodeMarkText(cmd: string, rest: string)
    requires A.IsMark(cmd)
    ensures Decode(cmd + rest) == DebugMark
  {
    assert (cmd + rest)[..|cmd|] == cmd;
  }

  // ---- Emitted lines ----

  function EnvOf(t: A.Tables): Env {
    Env(t.labels, t.variables)
  }

  /** All addresses fit the machine's integers. */
  ghost predicate InRange(t: A.Tables) {
    && (forall x :: x in t.labels ==> InInt(t.labels[x]))
    && (forall x :: x in t.variables ==> InInt(t.variables[x]))
    && (forall i :: 0 <= i < |t.constants| ==> InInt(t.constants[i].addr))
  }

  predicate ProperCode(line: A.Line) {
    line.Line? && A.IsKnown(line.cmd) && A.Matches(line) && A.IsCode(line)
  }

  /** What the emitted text encodes: a literal is fetched from its place in the pool. */
  function Encoded(t: A.Tables, line: A.Line, syms: A.Symbols): Instr
    requires ProperCode(line)
  {
    if line.cmd == "write" then
      Copy(PlaceAt('_', A.PoolAddress(t, line.args[0])), Place(line.args[2], EnvOf(t), syms))
    else Meaning(line, EnvOf(t), syms)
  }

  lemma ParsedAddress(prefix: char, a: int)
    requires IsPrefix(prefix) && InInt(a)
    ensures NumberText(PrintInt(a))
    ensures Parsed(prefix, PrintInt(a)) == if prefix == '@' then Literal(PrintInt(a)) else PlaceAt(prefix, Some(a))
  {
    StoiPrint(a);
    PrintIsNumberText(a);
  }

  lemma PlaceEmits(t: A.Tables, lex: A.Lexeme, syms: A.Symbols) returns (v: string)
    requires InRange(t) && SymbolsOk(syms) && Lexed(lex, syms)
    requires A.Fits(lex, A.Places() + {('@', A.Variable)})
    requires A.EmitLexeme(t, lex, false, syms).ok
    ensures NumberText(v) && IsPrefix(lex.prefix)
    ensures A.EmitLexeme(t, lex, false, syms).text == Pre(lex.prefix) + v
    ensures Parsed(lex.prefix, v) == Place(lex, EnvOf(t), syms)
  {
    hide NumberText, Stoi, PrintInt;
    if lex.kind.Number? {
      v := lex.value;
    } else {
      var a := if lex.kind.Variable? then t.variables[lex.value] else syms.numeric[lex.value];
      v := PrintInt(a);
      ParsedAddress(lex.prefix, a);
    }
  }

  lemma TargetEmits(t: A.Tables, lex: A.Lexeme, syms: A.Symbols) returns (p: char, v: string)
    requires InRange(t) && SymbolsOk(syms) && Lexed(lex, syms)
    requires A.Fits(lex, A.JumpTargets())
    requires A.EmitLexeme(t, lex, false, syms).ok
    ensures NumberText(v) && IsPrefix(p) && p != '@'
    ensures A.EmitLexeme(t, lex, false, syms).text == Pre(p) + v
    ensures Parsed(p, v) == Target(lex, EnvOf(t), syms)
  {
    hide NumberText, Stoi, PrintInt;
    if lex.kind.Label? {
      p, v := '_', PrintInt(t.labels[lex.value]);
      ParsedAddress('_', t.labels[lex.value]);
    } else {
      p := lex.prefix;
      v := PlaceEmits(t, lex, syms);
    }
  }

  lemma LiteralEmits(t: A.Tables, lex: A.Lexeme, syms: A.Symbols)
    requires A.Fits(lex, A.Values()) && A.PoolAddress(t, lex).Some?
    ensures A.EmitLexeme(t, lex, true, syms) == A.Emitted(PrintInt(A.PoolAddress(t, lex).value), true)
  {
  }

  lemma EmitThree(t: A.Tables, line: A.Line, syms: A.Symbols, a: string, b: string)
    requires line.Line? && |line.args| == 3 && line.args[1].kind.KeywordTo? && A.Opcode(line.cmd) == "1"
    requires a == A.EmitLexeme(t, line.args[0], line.cmd == "write", syms).text && a != ""
    requires b == A.EmitLexeme(t, line.args[2], false, syms).text && b != ""
    ensures A.Emit(t, line, syms) == "1 " + a + " " + b
  {
    hide A.EmitLexeme;
    assert A.EmitArgs(t, line, 1, syms) == "1" + " " + a;
    assert A.EmitLexeme(t, line.args[1], false, syms).text == "" by { ToEmitsNothing(t, line.args[1], syms); }
    assert A.EmitArgs(t, line, 2, syms) == "1" + " " + a;
    assert A.EmitArgs(t, line, 3, syms) == "1" + " " + a + " " + b;
    assert "1 " + a + " " + b == "1" + " " + a + " " + b;
  }

  lemma ToEmitsNothing(t: A.Tables, lex: A.Lexeme, syms: A.Symbols)
    requires lex.kind.KeywordTo?
    ensures A.EmitLexeme(t, lex, false, syms).text == ""
  {
  }

  lemma EmitOne(t: A.Tables, line: A.Line, syms: A.Symbols, a: string)
    requires line.Line? && |line.args| == 1 && line.cmd != "write" && A.Opcode(line.cmd) != ""
    requires a == A.EmitLexeme(t, line.args[0], false, syms).text && a != ""
    ensures A.Emit(t, line, syms) == A.Opcode(line.cmd) + " " + a
  {
    hide A.EmitLexeme;
    assert A.EmitArgs(t, line, 0, syms) == A.Opcode(line.cmd);
  }

  ghost predicate Encodable(t: A.Tables, line: A.Line, syms: A.Symbols)
    ensures Encodable(t, line, syms) ==> ProperCode(line)
  {
    && InRange(t) && SymbolsOk(syms) && ProperCode(line) && LineLexed(line, syms)
    && A.EmitsCleanly(t, line, syms)
    && (line.cmd == "write" ==> A.PoolAddress(t, line.args[0]).Some?)
  }

  lemma CopyDecodes(t: A.Tables, line: A.Line, syms: A.Symbols, rest: string)
    requires Encodable(t, line, syms) && line.cmd == "copy" && IsSuffix(rest)
    ensures Decode(A.Emit(t, line, syms) + rest) == Encoded(t, line, syms)
    ensures NoHash(A.Emit(t, line, syms))
  {
    hide Decode, Parsed, Place, A.EmitLexeme, NumberText, Pre;
    assert A.Fits(line.args[0], A.Pattern("copy")[0]) && A.Fits(line.args[1], A.Pattern("copy")[1])
        && A.Fits(line.args[2], A.Pattern("copy")[2]);
    var v := PlaceEmits(t, line.args[0], syms);
    var w := PlaceEmits(t, line.args[2], syms);
    var p, q := line.args[0].prefix, line.args[2].prefix;
    OperandTextIsToken(p, v);
    OperandTextIsToken(q, w);
    EmitThree(t, line, syms, Pre(p) + v, Pre(q) + w);
    DecodeCopyText(p, v, q, w, rest);
    assert "1 " + (Pre(p) + v) + " " + (Pre(q) + w) + rest == "1 " + Pre(p) + v + " " + Pre(q) + w + rest;
    OperandNoHash(p, v);
    OperandNoHash(q, w);
  }

  lemma WriteDecodes(t: A.Tables, line: A.Line, syms: A.Symbols, rest: string)
    requires Encodable(t, line, syms) && line.cmd == "write" && IsSuffix(rest)
    ensures Decode(A.Emit(t, line, syms) + rest) == Encoded(t, line, syms)
    ensures NoHash(A.Emit(t, line, syms))
  {
    hide Decode, Parsed, Place, A.EmitLexeme, NumberText, Pre, PrintInt;
    assert A.Fits(line.args[0], A.Pattern("write")[0]) && A.Fits(line.args[1], A.Pattern("write")[1])
        && A.Fits(line.args[2], A.Pattern("write")[2]);
    LiteralEmits(t, line.args[0], syms);
    var a := A.PoolAddress(t, line.args[0]).value;
    var v := PrintInt(a);
    ParsedAddress('_', a);
    var w := PlaceEmits(t, line.args[2], syms);
    var q := line.args[2].prefix;
    OperandTextIsToken(q, w);
    EmitThree(t, line, syms, v, Pre(q) + w);
    DecodeCopyText('_', v, q, w, rest);
    assert Pre('_') == "" by { NoPrefix(); }
    assert "1 " + v + " " + (Pre(q) + w) + rest == "1 " + "" + v + " " + Pre(q) + w + rest;
    OperandNoHash('_', v);
    assert "" + v == v;
    OperandNoHash(q, w);
  }

  lemma NoPrefix()
    ensures Pre('_') == ""
  {
  }

  lemma JumpDecodes(t: A.Tables, line: A.Line, syms: A.Symbols, rest: string)
    requires Encodable(t, line, syms) && A.IsJump(line.cmd) && IsSuffix(rest)
    ensures Decode(A.Emit(t, line, syms) + rest) == Encoded(t, line, syms)
    ensures NoHash(A.Emit(t, line, syms))
  {
    hide Decode, Parsed, Target, A.EmitLexeme, NumberText, Pre;
    assert A.Fits(line.args[0], A.Pattern(line.cmd)[0]);
    var p, v := TargetEmits(t, line.args[0], syms);
    var cond := JumpCondition(line.cmd);
    OperandTextIsToken(p, v);
    assert A.Opcode(line.cmd) == PrintInt(JumpCode(cond));
    EmitOne(t, line, syms, Pre(p) + v);
    DecodeJumpText(cond, p, v, rest);
    var code := PrintInt(JumpCode(cond));
    assert code + " " + (Pre(p) + v) + rest == code + " " + Pre(p) + v + rest;
    OperandNoHash(p, v);
  }

  ghost predicate NoHash(s: string) {
    forall i :: 0 <= i < |s| ==> s[i] != '#'
  }

  lemma OperandNoHash(p: char, v: string)
    requires IsPrefix(p) && NumberText(v)
    ensures NoHash(Pre(p) + v)
  {
    NumberTextFacts(v);
  }

  /** Every emitted line decodes to what it encodes, whatever blank-separated text follows. */
  lemma EmitDecodes(t: A.Tables, line: A.Line, syms: A.Symbols, rest: string)
    requires Encodable(t, line, syms) && IsSuffix(rest)
    ensures Decode(A.Emit(t, line, syms) + rest) == Encoded(t, line, syms)
    ensures NoHash(A.Emit(t, line, syms))
  {
    hide Decode;
    if line.cmd == "copy" {
      CopyDecodes(t, line, syms, rest);
    } else if line.cmd == "write" {
      WriteDecodes(t, line, syms, rest);
    } else if A.IsJump(line.cmd) {
      JumpDecodes(t, line, syms, rest);
    } else if A.IsMark(line.cmd) {
      DecodeMarkText(line.cmd, rest);
    } else {
      DecodeExecText(rest);
    }
  }

  lemma {:induction false} HashAfter(s: string, note: string)
    requires NoHash(s) && note != "" && note[0] == '#'
    ensures A.HashAt(s + note) == |s|
  {
    if s == "" {
      assert s + note == note;
    } else {
      assert (s + note)[1..] == s[1..] + note;
      HashAfter(s[1..], note);
    }
  }

  lemma {:induction false} DebugStartsWithHash(line: A.Line, n: nat)
    requires line.Line? && n <= |line.args|
    ensures var s := A.DebugArgs(line, n); s != "" && s[0] == '#'
  {
    hide A.DebugLexeme;
    if n > 0 {
      DebugStartsWithHash(line, n - 1);
    }
  }

  /** The debug comment, padded or not, is blank-separated text behind the instruction. */
  lemma DebugIsSuffix(text: string, note: string) returns (rest: string)
    requires NoHash(text) && note != "" && note[0] == '#'
    ensures A.WithDebug(text, note) == text + rest && IsSuffix(rest)
  {
    var s := text + " ";
    HashAfter(s, note);
    assert text + " " + note == s + note;
    var pad := if |s| < 15 then A.Spaces(15 - |s|) else "";
    rest := " " + pad + note;
    assert (s + note)[..|s|] == s && (s + note)[|s|..] == note;
    assert s + pad + note == text + rest;
    assert s + "" + note == s + note;
  }

  /** Round trip: the line written to the image, with or without debug information, decodes to
      the instruction it encodes. */
  lemma OutputDecodes(t: A.Tables, line: A.Line, debug: bool, syms: A.Symbols)
    requires Encodable(t, line, syms)
    ensures Decode(A.OutputLine(t, line, debug, syms)) == Encoded(t, line, syms)
  {
    hide Decode, Encodable, Encoded, A.Emit, NoHash;
    EmitDecodes(t, line, syms, "");
    var text := A.Emit(t, line, syms);
    assert text + "" == text;
    if debug {
      var note := A.DebugArgs(line, |line.args|);
      DebugStartsWithHash(line, |line.args|);
      var rest := DebugIsSuffix(text, note);
      EmitDecodes(t, line, syms, rest);
    }
  }

  /** The image built with debug information decodes like the image built without it. */
  lemma DebugIsTransparent(t: A.Tables, line: A.Line, syms: A.Symbols)
    requires Encodable(t, line, syms)
    ensures Decode(A.OutputLine(t, line, true, syms)) == Decode(A.OutputLine(t, line, false, syms))
  {
    OutputDecodes(t, line, true, syms);
    OutputDecodes(t, line, false, syms);
  }

  // ---- The forms of instructions ----

  /** The number that an operand stands for: itself, or the address of the name. */
  ghost predicate Number(t: A.Tables, lex: A.Lexeme, syms: A.Symbols, n: int) {
    match lex.kind
    case Number => Stoi(lex.value) == Some(n)
    case Register => lex.value in syms.numeric && syms.numeric[lex.value] == n
    case Variable => lex.value in t.variables && t.variables[lex.value] == n
    case Label => lex.value in t.labels && t.labels[lex.value] == n
    case _ => false
  }

  /** A star goes through the cell, except in front of a label; an at sign gives the address. */
  function Form(lex: A.Lexeme, n: int): Operand {
    if lex.prefix == '@' then Literal(PrintInt(n))
    else if lex.prefix == '*' && !lex.kind.Label? then Indirect(n)
    else Direct(n)
  }

  /** A copy keeps its operands in order; a write copies from the pool cell of its value. */
  lemma CopyForms(t: A.Tables, line: A.Line, debug: bool, syms: A.Symbols, n: int, d: int)
    requires Encodable(t, line, syms) && line.cmd in {"copy", "write"} && |line.args| == 3
    requires Number(t, line.args[2], syms, d)
    requires if line.cmd == "copy" then Number(t, line.args[0], syms, n)
             else A.PoolAddress(t, line.args[0]) == Some(n)
    ensures Decode(A.OutputLine(t, line, debug, syms)) ==
              Copy(if line.cmd == "copy" then Form(line.args[0], n) else Direct(n), Form(line.args[2], d))
  {
    hide Decode, A.OutputLine, Encodable, Number, Form, Place, A.Matches, A.PoolAddress;
    OutputDecodes(t, line, debug, syms);
    EncodableIsProper(t, line, syms);
    KindsOfPlaces(line);
    FormIsPlace(t, line.args[2], syms, d);
    if line.cmd == "copy" {
      FormIsPlace(t, line.args[0], syms, n);
    }
  }

  /** A jump has the condition of its name. */
  lemma JumpForms(t: A.Tables, line: A.Line, debug: bool, syms: A.Symbols, n: int)
    requires Encodable(t, line, syms) && line.cmd in {"jump", "jump_if", "jump_if_not", "jump_err"}
    requires |line.args| == 1 && Number(t, line.args[0], syms, n)
    ensures var i := Decode(A.OutputLine(t, line, debug, syms));
            && i.Jump? && i.target == Form(line.args[0], n)
            && (line.cmd == "jump" ==> i.cond == Always) && (line.cmd == "jump_if" ==> i.cond == IfTrue)
            && (line.cmd == "jump_if_not" ==> i.cond == IfFalse) && (line.cmd == "jump_err" ==> i.cond == IfError)
  {
    hide Decode, A.OutputLine, Encodable, Number, Form, Target, A.Matches;
    OutputDecodes(t, line, debug, syms);
    EncodableIsProper(t, line, syms);
    KindsOfPlaces(line);
    FormIsPlace(t, line.args[0], syms, n);
  }

  /** The commands without operands. */
  lemma PlainForms(t: A.Tables, line: A.Line, debug: bool, syms: A.Symbols)
    requires Encodable(t, line, syms)
    ensures line.cmd == "cpu_exec" ==> Decode(A.OutputLine(t, line, debug, syms)) == Exec
    ensures line.cmd in {"DEBUG_ON", "DEBUG_OFF"} ==> Decode(A.OutputLine(t, line, debug, syms)) == DebugMark
  {
    hide Decode, A.OutputLine, Encodable, A.Matches;
    OutputDecodes(t, line, debug, syms);
    EncodableIsProper(t, line, syms);
  }

  lemma EncodableIsProper(t: A.Tables, line: A.Line, syms: A.Symbols)
    requires Encodable(t, line, syms)
    ensures ProperCode(line)
  {
  }

  lemma FormIsPlace(t: A.Tables, lex: A.Lexeme, syms: A.Symbols, n: int)
    requires Number(t, lex, syms, n)
    ensures Target(lex, EnvOf(t), syms) == (if lex.kind.Label? then Direct(n) else Form(lex, n))
    ensures !lex.kind.Label? ==> Place(lex, EnvOf(t), syms) == Form(lex, n)
    ensures lex.kind.Label? && lex.prefix != '@' ==> Form(lex, n) == Direct(n)
  {
    hide PrintInt, Stoi;
  }

  lemma KindsOfPlaces(line: A.Line)
    requires ProperCode(line)
    ensures line.cmd in {"copy", "write"} ==> |line.args| == 3 && !line.args[2].kind.Label?
    ensures line.cmd == "copy" ==> !line.args[0].kind.Label?
    ensures line.args != [] && line.args[0].kind.Label? ==> line.args[0].prefix != '@'
  {
    assert forall i :: 0 <= i < |line.args| ==> A.Fits(line.args[i], A.Pattern(line.cmd)[i]);
  }

  // ---- What the debug comment says ----

  /** An operand as the comment shows it: texts, and numbers in first place, in quotes; names of
      variables and labels marked as such. */
  function Shown(lex: A.Lexeme, first: bool): string {
    var star := if lex.prefix == '_' then "" else [lex.prefix];
    if lex.kind.Str? || (lex.kind.Number? && first) then "\"" + lex.value + "\""
    else if lex.kind.Variable? then star + "var:" + lex.value
    else if lex.kind.Label? then star + "lbl:" + lex.value
    else star + lex.value
  }

  /** The comment of a line: the command, and behind it its operands, an arrow before the last. */
  function Comment(line: A.Line): string
    requires line.Line?
  {
    if |line.args| == 1 then "#  " + line.cmd + " " + Shown(line.args[0], true)
    else if |line.args| == 3 then
      "#  " + line.cmd + " " + Shown(line.args[0], true) + " => " + Shown(line.args[2], false)
    else "#  " + line.cmd
  }

  lemma ShownIsDebug(lex: A.Lexeme, first: bool, syms: A.Symbols)
    requires Lexed(lex, syms) && SymbolsOk(syms) && lex.kind !in {A.KeywordTo, A.Name, A.Comment, A.Unlexed}
    ensures A.DebugLexeme(lex, first) == Shown(lex, first) != ""
  {
    hide NumberParts;
    assert lex.kind.Number? ==> lex.value != "" by {
      if lex.kind.Number? {
        NumberTextFacts(lex.value);
      }
    }
  }

  lemma CommentIsDebug(t: A.Tables, line: A.Line, syms: A.Symbols)
    requires Encodable(t, line, syms)
    ensures A.DebugArgs(line, |line.args|) == Comment(line)
  {
    hide A.DebugLexeme, Shown, NumberText;
    KindsOfArgs(line);
    assert A.DebugArgs(line, 0) == "# " + " " + line.cmd == "#  " + line.cmd;
    if |line.args| > 0 {
      ShownIsDebug(line.args[0], true, syms);
      assert A.DebugArgs(line, 1) == "#  " + line.cmd + " " + Shown(line.args[0], true);
    }
    if |line.args| == 3 {
      assert A.DebugLexeme(line.args[1], false) == "=>" by { ArrowShown(line.args[1]); }
      ShownIsDebug(line.args[2], false, syms);
      var s := "#  " + line.cmd + " " + Shown(line.args[0], true);
      assert A.DebugArgs(line, 2) == s + " " + "=>";
      assert A.DebugArgs(line, 3) == s + " " + "=>" + " " + Shown(line.args[2], false);
      assert s + " " + "=>" + " " + Shown(line.args[2], false) == s + " => " + Shown(line.args[2], false);
    }
  }

  lemma ArrowShown(lex: A.Lexeme)
    requires lex.kind.KeywordTo?
    ensures A.DebugLexeme(lex, false) == "=>"
  {
  }

  lemma KindsOfArgs(line: A.Line)
    requires ProperCode(line)
    ensures line.cmd != "" && |line.args| in {0, 1, 3}
    ensures |line.args| > 0 ==> line.args[0].kind !in {A.KeywordTo, A.Name, A.Comment, A.Unlexed}
    ensures |line.args| == 3 ==>
              line.args[1].kind.KeywordTo? && line.args[2].kind !in {A.KeywordTo, A.Name, A.Comment, A.Unlexed}
  {
    assert forall i :: 0 <= i < |line.args| ==> A.Fits(line.args[i], A.Pattern(line.cmd)[i]);
  }

  /** With debug information a line is the instruction, at least one blank, and the comment, which
      begins in column 15 or behind a longer instruction. */
  lemma CommentIsWritten(t: A.Tables, line: A.Line, syms: A.Symbols) returns (blanks: string)
    requires Encodable(t, line, syms)
    ensures var code := A.OutputLine(t, line, false, syms);
            && A.OutputLine(t, line, true, syms) == code + blanks + Comment(line)
            && |code + blanks| == (if |code| < 15 then 15 else |code| + 1)
            && forall i :: 0 <= i < |blanks| ==> blanks[i] == ' '
  {
    hide Decode, Encodable, Encoded, A.Emit, Comment, A.DebugArgs;
    EmitDecodes(t, line, syms, "");
    CommentIsDebug(t, line, syms);
    var code, note := A.Emit(t, line, syms), A.DebugArgs(line, |line.args|);
    DebugStartsWithHash(line, |line.args|);
    var s := code + " ";
    HashAfter(s, note);
    assert code + " " + note == s + note;
    assert (s + note)[..|s|] == s && (s + note)[|s|..] == note;
    blanks := " " + if |s| < 15 then A.Spaces(15 - |s|) else "";
    assert s + A.Spaces(if |s| < 15 then 15 - |s| else 0) == code + blanks;
  }

  // ---- Which names must be defined ----

  /** Every variable is declared, and every label that is jumped to is defined. The label of a
      `write` is not looked at. */
  predicate NamesDefined(t: A.Tables, line: A.Line)
    requires line.Line?
  {
    forall i :: 0 <= i < |line.args| ==> NameDefined(t, line.args[i], line.cmd == "write" && i == 0)
  }

  predicate NameDefined(t: A.Tables, lex: A.Lexeme, written: bool) {
    && (lex.kind.Variable? ==> lex.value in t.variables)
    && (lex.kind.Label? && !written ==> lex.value in t.labels)
  }

  /** The second pass accepts a line exactly when its names are defined in that sense. */
  lemma AcceptedIffDefined(t: A.Tables, line: A.Line, syms: A.Symbols)
    requires ProperCode(line) && LineLexed(line, syms)
    ensures A.EmitsCleanly(t, line, syms) <==> NamesDefined(t, line)
  {
    forall i | 0 <= i < |line.args|
      ensures A.EmitLexeme(t, line.args[i], line.cmd == "write" && i == 0, syms).ok <==>
                NameDefined(t, line.args[i], line.cmd == "write" && i == 0)
    {
      LexemeAccepted(t, line.args[i], line.cmd == "write" && i == 0, syms);
    }
  }

  lemma LexemeAccepted(t: A.Tables, lex: A.Lexeme, written: bool, syms: A.Symbols)
    requires Lexed(lex, syms)
    ensures A.EmitLexeme(t, lex, written, syms).ok <==> NameDefined(t, lex, written)
  {
  }
}
