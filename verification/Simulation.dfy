/** The emitted image, step by step: what the CPU does at a line of code is what the line means,
    with literals at hand. `SourceMachine.dfy` relates this to source lines and named variables. */
module Simulation {
  import opened Wrappers
  import opened Text
  import opened Hardware
  import opened Isolation
  import opened Encoding
  import opened Layout
  import A = Assembler

  datatype Program = Program(lines: seq<A.Line>, first: int, syms: A.Symbols)

  function TablesOf(p: Program): A.Tables {
    A.Layout(A.Pass1(p.lines, p.first, p.syms))
  }

  /** The compiler accepts the program, and its addresses fit the machine. */
  ghost predicate Accepted(p: Program)
    ensures Accepted(p) ==> A.CodeLines(TablesOf(p).code)
  {
    && A.Pass1(p.lines, p.first, p.syms).errors == 0
    && AllLexed(p.lines, p.syms) && SymbolsOk(p.syms)
    && USER_SPACE_START <= p.first && InInt(TablesOf(p).next)
    && A.CodeLines(TablesOf(p).code)
    && forall i :: 0 <= i < |TablesOf(p).code| ==> CleanCode(TablesOf(p), i, p.syms)
  }

  ghost predicate CleanCode(t: A.Tables, i: nat, syms: A.Symbols)
    requires i < |t.code|
  {
    t.code[i].Line? && A.EmitsCleanly(t, t.code[i], syms)
  }

  /** Number of cells that hold code and constants. */
  function FixedSize(t: A.Tables): nat {
    |t.code| + |t.constants|
  }

  /** The physical cell of the first image line. */
  function Base(m: Machine, t: A.Tables): int
    requires Valid(m)
  {
    if m.kernel then t.first else t.first + ProcStart(m)
  }

  /** Code and constants of the image lie in memory, behind the system registers, where the
      running mode sees address `first`. */
  ghost predicate Loaded(m: Machine, t: A.Tables, image: seq<string>)
    ensures Loaded(m, t, image) ==> Valid(m)
  {
    && Valid(m) && HW_TIMER < Base(m, t) && FixedSize(t) <= |image|
    && Base(m, t) + FixedSize(t) <= |m.cells|
    && (!m.kernel ==> t.first + FixedSize(t) + ProcStart(m) <= ProcEnd(m) + 1)
    && forall i :: Base(m, t) <= i < Base(m, t) + FixedSize(t) ==>
                     m.cells[i] == image[i - Base(m, t)]
  }

  /** The image that the compiler writes for an accepted program. */
  function ImageOf(p: Program, debug: bool): seq<string>
    requires A.CodeLines(TablesOf(p).code)
  {
    A.Image(TablesOf(p), debug, p.syms)
  }

  /** The line the program counter points at, if it lies in the code. */
  function CodeIndex(m: Machine, t: A.Tables): (k: Option<nat>)
    requires Valid(m)
    ensures k.Some? ==> k.value < |t.code|
  {
    match Stoi(m.cells[PROGRAM_COUNTER])
    case None => None
    case Some(pc) => if t.first <= pc + 1 < t.first + |t.code| then Some(pc + 1 - t.first) else None
  }

  function MeaningOf(t: A.Tables, k: nat, syms: A.Symbols): Instr
    requires k < |t.code|
  {
    if ProperCode(t.code[k]) then Meaning(t.code[k], EnvOf(t), syms) else BadCode
  }

  /** One step by meaning: the line at the program counter acts by its meaning, without looking at
      any code or constant cell. */
  function MeaningStep(m: Machine, t: A.Tables, input: Inputs, syms: A.Symbols): (r: Machine)
    requires Valid(m)
    ensures |r.cells| == |m.cells|
  {
    if !m.status.Running? then m
    else
      match CodeIndex(m, t)
      case None => m
      case Some(k) => StepWith(m, MeaningOf(t, k, syms), input)
  }

  // ---- One step ----

  lemma LocateImage(m: Machine, t: A.Tables, image: seq<string>, i: nat)
    requires Loaded(m, t, image) && i < FixedSize(t) && USER_SPACE_START <= t.first
    ensures Locate(m, t.first + i) == At(Base(m, t) + i)
    ensures m.cells[Base(m, t) + i] == image[i]
  {
    hide Stoi, PrintInt;
  }

  lemma ReadyLoaded(m: Machine, t: A.Tables, image: seq<string>, input: Inputs)
    requires Loaded(m, t, image)
    ensures Loaded(Advance(m), t, image) && Loaded(Ready(m, input), t, image)
    ensures Base(Advance(m), t) == Base(m, t) && Base(Ready(m, input), t) == Base(m, t)
  {
    hide Stoi, PrintInt;
  }

  lemma FetchesLine(m: Machine, t: A.Tables, image: seq<string>)
    requires Loaded(m, t, image) && USER_SPACE_START <= t.first && CodeIndex(m, t).Some?
    ensures Fetch(m) == ReadResult(image[CodeIndex(m, t).value], Done)
  {
    hide Advance, Locate, Loaded, Stoi, Base;
    var k := CodeIndex(m, t).value;
    ReadyLoaded(m, t, image, Inputs(0, None, "", None, None));
    LocateImage(Advance(m), t, image, k);
  }

  lemma ImageLines(t: A.Tables, debug: bool, syms: A.Symbols, k: nat)
    requires A.CodeLines(t.code)
    ensures k < |t.code| ==> A.Image(t, debug, syms)[k] == A.OutputLine(t, t.code[k], debug, syms)
    ensures k < |t.constants| ==> A.Image(t, debug, syms)[|t.code| + k] == t.constants[k].text
  {
  }

  /** Everything the code of an accepted program satisfies. */
  lemma AcceptedCode(p: Program, k: nat)
    requires Accepted(p) && k < |TablesOf(p).code|
    ensures var t := TablesOf(p);
            && Encodable(t, t.code[k], p.syms)
            && (t.code[k].cmd == "write" ==> LiteralPlaced(t, t.code[k].args[0], p.syms))
  {
    hide A.EmitLexeme, Lexed, A.Layout, A.Pass1, SymbolsOk, A.EmitsCleanly, A.PoolAddress, LineLexed;
    var t := TablesOf(p);
    LayoutCorrect(p.lines, p.first, p.syms);
    assert CleanCode(t, k, p.syms);
    VariablesInRange(t);
  }

  lemma VariablesInRange(t: A.Tables)
    requires VariablesOk(t) && 0 <= t.first && t.first + |t.code| + |t.constants| + |t.order| <= INT_MAX
    ensures forall x :: x in t.variables ==> InInt(t.variables[x])
  {
    forall x | x in t.variables
      ensures InInt(t.variables[x])
    {
      var i :| 0 <= i < |t.order| && t.order[i] == x;
    }
  }

  /** Fetching a literal from the pool is the same as having it at hand. */
  lemma PoolFetch(m: Machine, t: A.Tables, image: seq<string>, lex: A.Lexeme, value: string, dst: Operand)
    requires Loaded(m, t, image) && USER_SPACE_START <= t.first && A.PoolAddress(t, lex).Some?
    requires var k := A.PoolAddress(t, lex).value - t.first;
             |t.code| <= k < FixedSize(t) && image[k] == value
    ensures ExecCopy(m, PlaceAt('_', A.PoolAddress(t, lex)), dst) == ExecCopy(m, Literal(value), dst)
  {
    var a := A.PoolAddress(t, lex).value;
    LocateImage(m, t, image, a - t.first);
    assert Read(m, a) == ReadResult(value, Done);
  }

  lemma SameCore(m: Machine, a: Instr, b: Instr, input: Inputs)
    requires Valid(m) && !a.DebugMark? && !b.DebugMark?
    requires Execute(Ready(m, input), a, input) == Execute(Ready(m, input), b, input)
    ensures StepWith(m, a, input) == StepWith(m, b, input)
  {
    hide Execute, Settle, TimerPhase, Advance, Poll;
    assert Ready(m, input) == Poll(Advance(m), input);
  }

  /** A `write` acts with its literal fetched from the pool as with the literal at hand. */
  lemma WriteSimulates(p: Program, m: Machine, image: seq<string>, debug: bool, k: nat, input: Inputs)
    requires Accepted(p) && image == ImageOf(p, debug) && Loaded(m, TablesOf(p), image) && k < |TablesOf(p).code|
    requires ProperCode(TablesOf(p).code[k]) && TablesOf(p).code[k].cmd == "write"
    ensures var t := TablesOf(p);
            StepWith(m, Encoded(t, t.code[k], p.syms), input) ==
              StepWith(m, Meaning(t.code[k], EnvOf(t), p.syms), input)
  {
    hide Loaded, Encodable, LiteralPlaced, StepWith, A.Pass1, A.Layout, Ready, ExecCopy, A.Fits, Encoding.Place,
      Value, Target, A.Image;
    var t := TablesOf(p);
    var line := t.code[k];
    AcceptedBasics(p);
    AcceptedCode(p, k);
    var n := Ready(m, input);
    assert Loaded(n, t, image) by { ReadyLoaded(m, t, image, input); }
    LiteralCell(t, line.args[0], debug, p.syms);
    PoolFetch(n, t, image, line.args[0], Value(line.args[0], EnvOf(t), p.syms),
              Encoding.Place(line.args[2], EnvOf(t), p.syms));
    SameCore(m, Encoded(t, line, p.syms), Meaning(line, EnvOf(t), p.syms), input);
  }

  /** One machine step on the image is one step by meaning. */
  lemma StepSimulates(p: Program, m: Machine, image: seq<string>, debug: bool, input: Inputs)
    requires Accepted(p) && image == ImageOf(p, debug) && Loaded(m, TablesOf(p), image)
    requires CodeIndex(m, TablesOf(p)).Some?
    ensures Step(m, input) == MeaningStep(m, TablesOf(p), input, p.syms)
  {
    hide Accepted, Loaded, LiteralPlaced, StepWith, Decode, A.OutputLine, TablesOf, Meaning, A.Matches, A.Fits;
    var t := TablesOf(p);
    assert USER_SPACE_START <= t.first by { AcceptedBasics(p); }
    var k := CodeIndex(m, t).value;
    AcceptedCode(p, k);
    FetchesLine(m, t, image);
    ImageLines(t, debug, p.syms, k);
    OutputDecodes(t, t.code[k], debug, p.syms);
    if t.code[k].cmd == "write" {
      WriteSimulates(p, m, image, debug, k, input);
    }
  }

  lemma LiteralCell(t: A.Tables, lex: A.Lexeme, debug: bool, syms: A.Symbols)
    requires A.CodeLines(t.code) && LiteralPlaced(t, lex, syms)
    ensures A.PoolAddress(t, lex).Some?
    ensures var k := A.PoolAddress(t, lex).value - t.first;
            |t.code| <= k < FixedSize(t) && A.Image(t, debug, syms)[k] == Value(lex, EnvOf(t), syms)
  {
    ImageLines(t, debug, syms, A.PoolAddress(t, lex).value - t.first - |t.code|);
  }

  lemma AcceptedBasics(p: Program)
    requires Accepted(p)
    ensures USER_SPACE_START <= TablesOf(p).first
  {
    hide A.Pass1, AllLexed, SymbolsOk;
    LayoutCorrect(p.lines, p.first, p.syms);
  }

  // ---- Labels in the compiled image ----

  /** A jump to a label, starred or not, decodes to a direct jump to the instruction behind the
      label's line: the number of instruction lines before it, counted from the first address. */
  lemma LabelJumpCompiled(p: Program, debug: bool, k: nat) returns (i: nat)
    requires Accepted(p) && k < |TablesOf(p).code|
    requires var line := TablesOf(p).code[k];
             line.Line? && A.IsJump(line.cmd) && |line.args| == 1 && line.args[0].kind.Label?
    ensures var line := TablesOf(p).code[k];
            && i < |p.lines| && Declares(p.lines[i], "label", line.args[0].value)
            && Decode(ImageOf(p, debug)[k]) == Jump(JumpCondition(line.cmd), Direct(p.first + Position(p.lines, i)))
  {
    hide Decode, A.Pass1, A.Layout, A.OutputLine, SymbolsOk, AllLexed, LineLexed, A.EmitLexeme, CodeOf, VarsOf,
      A.Fits, A.Matches, VariablesOk;
    var t := TablesOf(p);
    AcceptedCode(p, k);
    ImageLines(t, debug, p.syms, k);
    OutputDecodes(t, t.code[k], debug, p.syms);
    LayoutCorrect(p.lines, p.first, p.syms);
    var x := t.code[k].args[0].value;
    assert x in t.labels by { CleanLabel(p, k); }
    i :| 0 <= i < |p.lines| && Declares(p.lines[i], "label", x);
    assert LabelPlaced(t, p.lines, i);
  }

  lemma CleanLabel(p: Program, k: nat)
    requires Accepted(p) && k < |TablesOf(p).code|
    requires var line := TablesOf(p).code[k];
             line.Line? && A.IsJump(line.cmd) && |line.args| == 1 && line.args[0].kind.Label?
    ensures TablesOf(p).code[k].args[0].value in TablesOf(p).labels
  {
    hide A.Pass1, A.Layout, SymbolsOk, AllLexed;
    assert CleanCode(TablesOf(p), k, p.syms);
  }

  /** A `write` of a label decodes to a copy from a pool cell, in every accepted program. The cell
      holds the label's address if a line defines the label; if none does, the compiler has not
      complained, and the cell is empty. */
  lemma LabelWriteCompiled(p: Program, debug: bool, k: nat) returns (c: int)
    requires Accepted(p) && k < |TablesOf(p).code|
    requires var line := TablesOf(p).code[k];
             line.Line? && line.cmd == "write" && |line.args| == 3 && line.args[0].kind.Label?
    ensures var t, line := TablesOf(p), TablesOf(p).code[k];
            && p.first + |t.code| <= c < p.first + FixedSize(t)
            && Decode(ImageOf(p, debug)[k]) == Copy(Direct(c), Encoding.Place(line.args[2], EnvOf(t), p.syms))
            && (ImageOf(p, debug)[c - p.first] == "" <==>
                  forall i :: 0 <= i < |p.lines| ==> !Declares(p.lines[i], "label", line.args[0].value))
            && forall i :: 0 <= i < |p.lines| && Declares(p.lines[i], "label", line.args[0].value) ==>
                             ImageOf(p, debug)[c - p.first] == PrintInt(p.first + Position(p.lines, i))
  {
    hide Decode, A.Pass1, A.Layout, A.OutputLine, SymbolsOk, AllLexed, LineLexed, A.EmitLexeme, PrintInt,
      Encoding.Place, CodeOf, VarsOf, A.Fits, A.Matches, VariablesOk;
    var t := TablesOf(p);
    AcceptedCode(p, k);
    ImageLines(t, debug, p.syms, k);
    OutputDecodes(t, t.code[k], debug, p.syms);
    LayoutCorrect(p.lines, p.first, p.syms);
    var line := t.code[k];
    LiteralCell(t, line.args[0], debug, p.syms);
    c := A.PoolAddress(t, line.args[0]).value;
    var x := line.args[0].value;
    forall i | 0 <= i < |p.lines| && Declares(p.lines[i], "label", x)
      ensures x in t.labels && t.labels[x] == p.first + Position(p.lines, i)
    {
      assert LabelPlaced(t, p.lines, i);
    }
  }
}
