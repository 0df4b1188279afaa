/** The compiler object: it fills its tables in place, line by line and pass by pass. */
module CompilerObject {
  import opened Wrappers
  import opened Text
  import opened Assembler
  import G = Grammar
  import L = Layout
  import E = Encoding

  class Compiler {
    const syms: Symbols
    const debug: bool
    const firstInstr: int
    var nextInstr: int
    var labels: map<string, int>
    var variables: map<string, int>
    var order: seq<string>
    var constants: seq<Constant>
    var index: map<string, nat>
    var code: seq<Line>
    var errors: nat

    ghost function Value(): Tables
      reads this
    {
      Tables(firstInstr, nextInstr, labels, variables, order, constants, index, code, errors)
    }

    constructor (first: int, debug: bool, syms: Symbols)
      ensures Value() == Empty(first) && this.syms == syms && this.debug == debug
    {
      this.syms := syms;
      this.debug := debug;
      firstInstr := first;
      nextInstr := first;
      labels, variables, order := map[], map[], [];
      constants, index := [], map[];
      code, errors := [], 0;
    }

    method ProcessLine(line: Line)
      modifies this
      ensures Value() == Assembler.ProcessLine(old(Value()), line, syms)
    {
      if line.Blank? {
        return;
      }
      if !IsKnown(line.cmd) || !Matches(line) {
        errors := errors + 1;
        return;
      }
      if line.cmd == "var" {
        var name := line.args[0].value;
        if name in variables {
          errors := errors + 1;
          return;
        }
        variables := variables[name := 0];
        order := order + [name];
        return;
      }
      if line.cmd == "label" {
        var name := line.args[0].value;
        if name in labels {
          errors := errors + 1;
          return;
        }
        labels := labels[name := nextInstr];
        return;
      }
      code := code + [line];
      nextInstr := nextInstr + 1;
      if line.cmd == "write" && |line.args| > 0 {
        AddConstant(line.args[0]);
      }
    }

    /** The whole compilation: an image exactly for sources without an error in either pass. */
    method Compile(lines: seq<Line>) returns (image: Option<seq<string>>)
      requires Value() == Empty(firstInstr)
      modifies this
      ensures CodeLines(Layout(Pass1(lines, firstInstr, syms)).code)
      ensures var t := Layout(Pass1(lines, firstInstr, syms));
              && (image.Some? <==> t.errors == 0 && |t.code| > 0
                                   && forall i :: 0 <= i < |t.code| ==> EmitsCleanly(t, t.code[i], syms))
              && (image.Some? ==> image.value == Image(t, debug, syms))
      ensures L.AllLexed(lines, syms) && E.SymbolsOk(syms) ==> (image.Some? <==> G.WellFormed(lines))
    {
      CodeIsLines(lines, firstInstr, syms);
      if L.AllLexed(lines, syms) && E.SymbolsOk(syms) {
        G.AcceptedIffWellFormed(lines, firstInstr, syms);
      }
      var ok := FirstPass(lines);
      if !ok {
        return None;
      }
      CalculateAddresses();
      var written, complete := Pass2();
      image := if complete && errors == 0 then Some(written) else None;
    }

    method AddConstant(lex: Lexeme)
      modifies this
      ensures Value() == Pool(old(Value()), lex, syms)
    {
      var raw := RawValue(lex);
      if raw != "" && raw !in index {
        index := index[raw := |constants|];
        constants := constants + [Constant(raw, PooledText(lex, syms), 0)];
      }
    }

    method FirstPass(lines: seq<Line>) returns (ok: bool)
      requires Value() == Empty(firstInstr)
      modifies this
      ensures Value() == Pass1(lines, firstInstr, syms) && (ok <==> Value().errors == 0)
    {
      var i := 0;
      while i < |lines|
        invariant 0 <= i <= |lines|
        invariant Value() == Pass1(lines[..i], firstInstr, syms)
      {
        ProcessLine(lines[i]);
        assert lines[..i + 1][..i] == lines[..i];
        i := i + 1;
      }
      assert lines[..i] == lines;
      ok := errors == 0;
    }

    method CalculateAddresses()
      modifies this
      ensures Value() == Layout(old(Value()))
    {
      ghost var t := Value();
      var start := nextInstr;
      PlaceAllConstants(start);
      var variablesStart := start + |constants|;
      var i := 0;
      while i < |order|
        invariant 0 <= i <= |order| && order == t.order
        invariant Value() == t.(constants := PlaceConstants(t.constants, start, t.labels),
                                variables := PlaceVariables(t.variables, t.order[..i], variablesStart))
      {
        variables := variables[order[i] := variablesStart + i];
        assert t.order[..i + 1][..i] == t.order[..i];
        i := i + 1;
      }
      assert t.order[..i] == t.order;
      nextInstr := variablesStart + |order|;
    }

    /** Numbers the constants and fills in the labels that are written as values. */
    method PlaceAllConstants(start: int)
      modifies this`constants
      ensures constants == PlaceConstants(old(constants), start, labels)
    {
      ghost var before := constants;
      var i := 0;
      while i < |constants|
        invariant 0 <= i <= |constants| == |before|
        invariant forall k :: 0 <= k < |before| ==>
                                constants[k] == if k < i then Placed(before[k], start + k, labels) else before[k]
      {
        var c := constants[i].(addr := start + i);
        if IsLabelKey(c.raw) && c.raw[6..] in labels {
          c := c.(text := PrintInt(labels[c.raw[6..]]));
        }
        constants := constants[i := c];
        i := i + 1;
      }
    }

    /** Writes the image; it succeeds when every line was emitted without an error and there is
        at least one instruction. */
    method Pass2() returns (image: seq<string>, ok: bool)
      requires CodeLines(code)
      modifies this`errors
      ensures image == Image(old(Value()), debug, syms)
      ensures ok <==> |code| > 0
      ensures errors == old(errors) <==>
                |code| > 0 && forall i :: 0 <= i < |code| ==> EmitsCleanly(old(Value()), code[i], syms)
    {
      var lines := EmitCode();
      var texts := ConstantTexts();
      var blanks := BlankLines();
      image := lines + texts + blanks;
      ok := |code| > 0;
      if !ok {
        errors := errors + 1;
      }
    }

    method EmitCode() returns (lines: seq<string>)
      requires CodeLines(code)
      modifies this`errors
      ensures |lines| == |code| && errors >= old(errors)
      ensures forall k :: 0 <= k < |code| ==> lines[k] == OutputLine(old(Value()), code[k], debug, syms)
      ensures errors == old(errors) <==> forall i :: 0 <= i < |code| ==> EmitsCleanly(old(Value()), code[i], syms)
    {
      ghost var t := Value();
      lines := [];
      var i := 0;
      while i < |code|
        invariant 0 <= i <= |code| == |t.code| && code == t.code
        invariant Value() == t.(errors := errors) && errors >= t.errors
        invariant |lines| == i && forall k :: 0 <= k < i ==> lines[k] == OutputLine(t, code[k], debug, syms)
        invariant errors == t.errors <==> forall k :: 0 <= k < i ==> EmitsCleanly(t, code[k], syms)
      {
        hide EmitsCleanly, OutputLine;
        var text := EmitOutput(code[i], t);
        lines := lines + [text];
        i := i + 1;
      }
    }

    /** One line of the image, with its debug comment when asked for. */
    method EmitOutput(line: Line, ghost t: Tables) returns (text: string)
      requires line.Line? && t.errors <= errors && Value() == t.(errors := errors)
      modifies this`errors
      ensures text == OutputLine(t, line, debug, syms)
      ensures errors >= old(errors)
      ensures errors == old(errors) <==> EmitsCleanly(t, line, syms)
    {
      text := EmitLine(line, t);
      if debug {
        text := WithDebug(text, DebugArgs(line, |line.args|));
      }
    }

    method ConstantTexts() returns (texts: seq<string>)
      ensures |texts| == |constants| && forall k :: 0 <= k < |constants| ==> texts[k] == constants[k].text
    {
      texts := [];
      var i := 0;
      while i < |constants|
        invariant 0 <= i <= |constants| && |texts| == i
        invariant forall k :: 0 <= k < i ==> texts[k] == constants[k].text
      {
        texts := texts + [constants[i].text];
        i := i + 1;
      }
    }

    method BlankLines() returns (blanks: seq<string>)
      ensures |blanks| == |order| && forall k :: 0 <= k < |order| ==> blanks[k] == ""
    {
      blanks := [];
      var i := 0;
      while i < |order|
        invariant 0 <= i <= |order| && |blanks| == i
        invariant forall k :: 0 <= k < i ==> blanks[k] == ""
      {
        blanks := blanks + [""];
        i := i + 1;
      }
    }

    /** The text of one instruction; unresolved names are counted as errors. */
    method EmitLine(line: Line, ghost t: Tables) returns (text: string)
      requires line.Line? && t.errors <= errors && Value() == t.(errors := errors)
      modifies this`errors
      ensures text == Emit(t, line, syms)
      ensures errors >= old(errors)
      ensures errors == old(errors) <==> EmitsCleanly(t, line, syms)
    {
      hide EmitLexeme;
      ghost var before := errors;
      text := Opcode(line.cmd);
      var i := 0;
      while i < |line.args|
        invariant 0 <= i <= |line.args|
        invariant Value() == t.(errors := errors) && errors >= before
        invariant text == EmitArgs(t, line, i, syms)
        invariant errors == before <==>
                    forall k :: 0 <= k < i ==> EmitLexeme(t, line.args[k], line.cmd == "write" && k == 0, syms).ok
      {
        var tables := Tables(firstInstr, nextInstr, labels, variables, order, constants, index, code, errors);
        var e := EmitLexeme(tables, line.args[i], line.cmd == "write" && i == 0, syms);
        ErrorsDoNotMatter(tables, t, line.args[i], line.cmd == "write" && i == 0, syms);
        text := Glue(text, e.text);
        if !e.ok {
          errors := errors + 1;
        }
        i := i + 1;
      }
    }
  }

  lemma {:induction false} CodeIsLines(lines: seq<Line>, first: int, syms: Symbols)
    ensures CodeLines(Pass1(lines, first, syms).code)
  {
    if lines != [] {
      CodeIsLines(lines[..|lines| - 1], first, syms);
    }
  }

  lemma ErrorsDoNotMatter(s: Tables, t: Tables, lex: Lexeme, written: bool, syms: Symbols)
    requires s.(errors := t.errors) == t
    ensures EmitLexeme(s, lex, written, syms) == EmitLexeme(t, lex, written, syms)
  {
  }
}
