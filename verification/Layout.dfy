/** Correctness of the assembler's tables: where code, labels, pooled constants and variables
    end up, stated on the source lines. */
module Layout {
  import opened Wrappers
  import opened Encoding
  import A = Assembler

  // ---- What the source lines declare ----

  /** The instruction lines in order. */
  function CodeOf(lines: seq<A.Line>): (r: seq<A.Line>)
    ensures |r| <= |lines|
  {
    if lines == [] then []
    else
      var before := CodeOf(lines[..|lines| - 1]);
      if A.IsCode(lines[|lines| - 1]) then before + [lines[|lines| - 1]] else before
  }

  predicate Declares(line: A.Line, cmd: string, name: string) {
    line.Line? && line.cmd == cmd && |line.args| == 1 && line.args[0].value == name
  }

  /** The declared variables in order. */
  function VarsOf(lines: seq<A.Line>): (r: seq<string>) {
    if lines == [] then []
    else
      var before, last := VarsOf(lines[..|lines| - 1]), lines[|lines| - 1];
      if last.Line? && last.cmd == "var" && |last.args| == 1 then before + [last.args[0].value] else before
  }

  ghost predicate AllLexed(lines: seq<A.Line>, syms: A.Symbols) {
    forall i :: 0 <= i < |lines| ==> LineLexed(lines[i], syms)
  }

  // ---- First-pass invariants ----

  /** A pool entry stands for the literal of some `write`. */
  ghost predicate PooledFrom(c: A.Constant, lex: A.Lexeme, syms: A.Symbols) {
    A.Fits(lex, A.Values()) && Lexed(lex, syms) && c.raw == A.RawValue(lex) && c.text == A.PooledText(lex, syms)
  }

  ghost predicate PoolOk(t: A.Tables, syms: A.Symbols) {
    && (forall raw :: raw in t.index ==> t.index[raw] < |t.constants| && t.constants[t.index[raw]].raw == raw)
    && (forall i :: 0 <= i < |t.constants| ==> HasSource(t.constants[i], syms))
  }

  ghost predicate HasSource(c: A.Constant, syms: A.Symbols) {
    exists lex :: PooledFrom(c, lex, syms)
  }

  ghost predicate CodeOk(t: A.Tables, syms: A.Symbols) {
    forall i :: 0 <= i < |t.code| ==> CodeLineOk(t, t.code[i], syms)
  }

  ghost predicate CodeLineOk(t: A.Tables, line: A.Line, syms: A.Symbols) {
    && ProperCode(line) && LineLexed(line, syms)
    && (line.cmd == "write" ==> A.RawValue(line.args[0]) in t.index)
  }

  ghost predicate Distinct(names: seq<string>) {
    forall i, j :: 0 <= i < j < |names| ==> names[i] != names[j]
  }

  ghost predicate VarsOk(t: A.Tables) {
    && Distinct(t.order)
    && (forall x :: x in t.variables <==> x in t.order)
  }

  /** Holds after any sequence of accepted or rejected lines. */
  ghost predicate FirstPassOk(t: A.Tables, first: int, syms: A.Symbols) {
    && t.first == first && t.next == first + |t.code|
    && PoolOk(t, syms) && CodeOk(t, syms) && VarsOk(t)
    && (forall x :: x in t.labels ==> first <= t.labels[x] <= t.next)
  }

  lemma PoolKeepsCode(t: A.Tables, u: A.Tables, syms: A.Symbols)
    requires CodeOk(t, syms) && u.code == t.code
    requires forall raw :: raw in t.index ==> raw in u.index
    ensures CodeOk(u, syms)
  {
    forall i | 0 <= i < |u.code|
      ensures CodeLineOk(u, u.code[i], syms)
    {
      assert CodeLineOk(t, t.code[i], syms);
    }
  }

  lemma PoolStep(t: A.Tables, lex: A.Lexeme, syms: A.Symbols)
    requires PoolOk(t, syms) && A.Fits(lex, A.Values()) && Lexed(lex, syms) && SymbolsOk(syms)
    ensures var u := A.Pool(t, lex, syms);
            && PoolOk(u, syms) && A.RawValue(lex) in u.index
            && (forall raw :: raw in t.index ==> raw in u.index)
            && u.(constants := t.constants, index := t.index) == t
  {
    RawNotEmpty(lex, syms);
    var raw := A.RawValue(lex);
    var u := A.Pool(t, lex, syms);
    if raw !in t.index {
      forall i | 0 <= i < |u.constants|
        ensures HasSource(u.constants[i], syms)
      {
        if i < |t.constants| {
          assert HasSource(t.constants[i], syms);
        } else {
          assert PooledFrom(u.constants[i], lex, syms);
        }
      }
    }
  }

  lemma RawNotEmpty(lex: A.Lexeme, syms: A.Symbols)
    requires A.Fits(lex, A.Values()) && Lexed(lex, syms) && SymbolsOk(syms)
    ensures A.RawValue(lex) != ""
  {
    if lex.kind.Number? {
      NumberTextFacts(lex.value);
    }
  }

  lemma CodeStep(t: A.Tables, line: A.Line, first: int, syms: A.Symbols)
    requires FirstPassOk(t, first, syms) && ProperCode(line) && LineLexed(line, syms) && SymbolsOk(syms)
    ensures FirstPassOk(A.AddCode(t, line, syms), first, syms)
    ensures var u := A.AddCode(t, line, syms);
            u.code == t.code + [line] && u.labels == t.labels && u.order == t.order && u.errors == t.errors
  {
    var u := t.(code := t.code + [line], next := t.next + 1);
    var r := A.AddCode(t, line, syms);
    assert PoolOk(u, syms);
    if line.cmd == "write" {
      assert A.Fits(line.args[0], A.Pattern("write")[0]);
      PoolStep(u, line.args[0], syms);
    }
    PoolKeepsCode(t, r.(code := t.code), syms);
    forall i | 0 <= i < |r.code|
      ensures CodeLineOk(r, r.code[i], syms)
    {
      if i < |t.code| {
        assert CodeLineOk(r.(code := t.code), t.code[i], syms);
      }
    }
  }

  /** Every line, accepted or rejected, keeps the first-pass invariants. */
  lemma LineStep(t: A.Tables, line: A.Line, first: int, syms: A.Symbols)
    requires FirstPassOk(t, first, syms) && LineLexed(line, syms) && SymbolsOk(syms)
    ensures FirstPassOk(A.ProcessLine(t, line, syms), first, syms)
  {
    hide PoolOk, CodeOk, VarsOk, ProperCode, LineLexed, SymbolsOk;
    if ProperCode(line) {
      assert A.ProcessLine(t, line, syms) == A.AddCode(t, line, syms) by { ProperLine(t, line, syms); }
      CodeStep(t, line, first, syms);
    } else {
      OtherLine(t, line, syms);
    }
  }

  lemma ProperLine(t: A.Tables, line: A.Line, syms: A.Symbols)
    requires ProperCode(line)
    ensures A.ProcessLine(t, line, syms) == A.AddCode(t, line, syms)
  {
  }

  /** Declarations and rejected lines leave code and pool alone. */
  lemma OtherLine(t: A.Tables, line: A.Line, syms: A.Symbols)
    requires !ProperCode(line)
    ensures var r := A.ProcessLine(t, line, syms);
            && r.first == t.first && r.next == t.next && r.code == t.code
            && (PoolOk(t, syms) ==> PoolOk(r, syms)) && (CodeOk(t, syms) ==> CodeOk(r, syms))
            && (VarsOk(t) ==> VarsOk(r))
            && (forall x :: x in r.labels ==> (x in t.labels && r.labels[x] == t.labels[x]) || r.labels[x] == t.next)
  {
    hide A.ProcessLine, ProperCode, CodeOk, VarsOk;
    var r := A.ProcessLine(t, line, syms);
    OtherLineShape(t, line, syms);
    if CodeOk(t, syms) {
      PoolKeepsCode(t, r, syms);
    }
    if VarsOk(t) && r.order != t.order {
      VarDeclared(t, r, line.args[0].value);
    } else if VarsOk(t) {
      VarsUnchanged(t, r);
    }
  }

  lemma OtherLineShape(t: A.Tables, line: A.Line, syms: A.Symbols)
    requires !ProperCode(line)
    ensures var r := A.ProcessLine(t, line, syms);
            && r.first == t.first && r.next == t.next && r.code == t.code
            && r.constants == t.constants && r.index == t.index
            && ((r.order == t.order && r.variables == t.variables)
                || (line.Line? && |line.args| == 1 && line.args[0].value !in t.variables
                    && r.order == t.order + [line.args[0].value]
                    && r.variables == t.variables[line.args[0].value := 0]))
            && (r.labels == t.labels
                || (line.Line? && |line.args| == 1 && r.labels == t.labels[line.args[0].value := t.next]))
  {
    hide A.Fits;
  }

  lemma VarDeclared(t: A.Tables, r: A.Tables, name: string)
    requires VarsOk(t) && name !in t.variables && r.order == t.order + [name] && r.variables == t.variables[name := 0]
    ensures VarsOk(r)
  {
  }

  lemma VarsUnchanged(t: A.Tables, r: A.Tables)
    requires VarsOk(t) && r.order == t.order && r.variables == t.variables
    ensures VarsOk(r)
  {
  }

  lemma {:induction false} FirstPassInvariant(lines: seq<A.Line>, first: int, syms: A.Symbols)
    requires AllLexed(lines, syms) && SymbolsOk(syms)
    ensures FirstPassOk(A.Pass1(lines, first, syms), first, syms)
  {
    if lines != [] {
      assert LineLexed(lines[|lines| - 1], syms);
      FirstPassInvariant(lines[..|lines| - 1], first, syms);
      LineStep(A.Pass1(lines[..|lines| - 1], first, syms), lines[|lines| - 1], first, syms);
    }
  }

  /** A label names the address of the first instruction behind its declaration. */
  ghost predicate LabelsOk(t: A.Tables, lines: seq<A.Line>) {
    && (forall i :: 0 <= i < |lines| && lines[i].Line? && lines[i].cmd == "label" ==> LabelPlaced(t, lines, i))
    && (forall x :: x in t.labels ==> exists i :: 0 <= i < |lines| && Declares(lines[i], "label", x))
  }

  /** The number of instruction lines before line i. */
  function Position(lines: seq<A.Line>, i: nat): nat
    requires i <= |lines|
  {
    |CodeOf(lines[..i])|
  }

  ghost predicate LabelPlaced(t: A.Tables, lines: seq<A.Line>, i: nat)
    requires i < |lines|
  {
    && lines[i].Line? && |lines[i].args| == 1 && lines[i].args[0].value in t.labels
    && t.labels[lines[i].args[0].value] == t.first + Position(lines, i)
  }

  lemma {:induction false} AcceptedPass(lines: seq<A.Line>, first: int, syms: A.Symbols)
    requires A.Pass1(lines, first, syms).errors == 0 && AllLexed(lines, syms) && SymbolsOk(syms)
    ensures var t := A.Pass1(lines, first, syms);
            t.code == CodeOf(lines) && t.order == VarsOf(lines) && LabelsOk(t, lines)
  {
    if lines != [] {
      var n := |lines| - 1;
      var before, last := lines[..n], lines[n];
      var s, t := A.Pass1(before, first, syms), A.Pass1(lines, first, syms);
      assert LineLexed(last, syms);
      assert AllLexed(before, syms);
      AcceptedLine(s, last, syms);
      AcceptedPass(before, first, syms);
      FirstPassInvariant(before, first, syms);
      if last.Line? && last.cmd == "label" {
        LabelsAdded(s, t, lines);
      } else {
        LabelsKept(s, t, lines);
      }
    }
  }

  /** What an accepted line adds to the tables. */
  lemma AcceptedLine(s: A.Tables, line: A.Line, syms: A.Symbols)
    ensures var t := A.ProcessLine(s, line, syms);
            && t.first == s.first && s.errors <= t.errors
            && (t.errors == 0 ==>
                  && t.code == s.code + (if A.IsCode(line) then [line] else [])
                  && (line.Line? && line.cmd == "var" ==> |line.args| == 1)
                  && t.order == s.order + (if line.Line? && line.cmd == "var" then [line.args[0].value] else [])
                  && (line.Line? && line.cmd == "label" ==>
                        |line.args| == 1 && line.args[0].value !in s.labels
                        && t.labels == s.labels[line.args[0].value := s.next])
                  && (!(line.Line? && line.cmd == "label") ==> t.labels == s.labels))
  {
    hide A.Matches, A.RawValue, A.PooledText;
    OneName(line);
  }

  /** A declaration that matches its pattern has one name. */
  lemma OneName(line: A.Line)
    ensures line.Line? && A.Matches(line) && line.cmd in {"var", "label"} ==> |line.args| == 1
  {
    hide A.Fits;
  }

  lemma LabelsKept(s: A.Tables, t: A.Tables, lines: seq<A.Line>)
    requires lines != [] && LabelsOk(s, lines[..|lines| - 1])
    requires t.labels == s.labels && t.first == s.first
    requires !(lines[|lines| - 1].Line? && lines[|lines| - 1].cmd == "label")
    ensures LabelsOk(t, lines)
  {
    var n := |lines| - 1;
    forall i | 0 <= i < |lines| && lines[i].Line? && lines[i].cmd == "label"
      ensures LabelPlaced(t, lines, i)
    {
      assert lines[..n][i] == lines[i];
      assert LabelPlaced(s, lines[..n], i);
      assert lines[..n][..i] == lines[..i];
    }
    forall x | x in t.labels
      ensures exists i :: 0 <= i < |lines| && Declares(lines[i], "label", x)
    {
      var i :| 0 <= i < n && Declares(lines[..n][i], "label", x);
      assert Declares(lines[i], "label", x);
    }
  }

  lemma LabelsAdded(s: A.Tables, t: A.Tables, lines: seq<A.Line>)
    requires lines != [] && LabelsOk(s, lines[..|lines| - 1])
    requires var last := lines[|lines| - 1];
             && last.Line? && last.cmd == "label" && |last.args| == 1 && last.args[0].value !in s.labels
             && t.labels == s.labels[last.args[0].value := s.next]
    requires t.first == s.first && s.next == s.first + |CodeOf(lines[..|lines| - 1])|
    ensures LabelsOk(t, lines)
  {
    var n := |lines| - 1;
    forall i | 0 <= i < |lines| && lines[i].Line? && lines[i].cmd == "label"
      ensures LabelPlaced(t, lines, i)
    {
      if i < n {
        assert lines[..n][i] == lines[i];
        assert LabelPlaced(s, lines[..n], i);
        assert lines[..n][..i] == lines[..i];
      }
    }
    forall x | x in t.labels
      ensures exists i :: 0 <= i < |lines| && Declares(lines[i], "label", x)
    {
      if x in s.labels {
        var i :| 0 <= i < n && Declares(lines[..n][i], "label", x);
        assert Declares(lines[i], "label", x);
      } else {
        assert Declares(lines[n], "label", x);
      }
    }
  }

  // ---- The final tables ----

  /** Equal pool keys stand for equal literals. */
  lemma RawDetermines(a: A.Lexeme, b: A.Lexeme, syms: A.Symbols)
    requires A.Fits(a, A.Values()) && A.Fits(b, A.Values()) && Lexed(a, syms) && Lexed(b, syms) && SymbolsOk(syms)
    requires A.RawValue(a) == A.RawValue(b)
    ensures A.PooledText(a, syms) == A.PooledText(b, syms)
    ensures a.kind.Label? <==> b.kind.Label?
    ensures a.kind.Label? ==> a.value == b.value
  {
    RawShape(a, syms);
    RawShape(b, syms);
    if a.kind.Str? {
      assert a.value == A.RawValue(a)[1..|A.RawValue(a)| - 1];
      assert b.value == A.RawValue(b)[1..|A.RawValue(b)| - 1];
    } else if a.kind.Label? {
      assert a.value == A.RawValue(a)[6..] && b.value == A.RawValue(b)[6..];
    }
  }

  lemma RawShape(lex: A.Lexeme, syms: A.Symbols)
    requires A.Fits(lex, A.Values()) && Lexed(lex, syms) && SymbolsOk(syms)
    ensures var raw := A.RawValue(lex);
            && raw != ""
            && (raw[0] == '"' <==> lex.kind.Str?)
            && (A.IsLabelKey(raw) <==> lex.kind.Label?)
            && (NumberText(raw) <==> lex.kind.Number?)
  {
    var raw := A.RawValue(lex);
    RawNotEmpty(lex, syms);
    if NumberText(raw) {
      NumberTextFacts(raw);
    }
    if lex.kind.Label? {
      assert raw[..6] == "LABEL:" && raw[0] == 'L';
    }
  }

  lemma {:induction false} VariablesPlaced(vars: map<string, int>, order: seq<string>, start: int)
    requires Distinct(order)
    ensures var r := A.PlaceVariables(vars, order, start);
            && (forall i :: 0 <= i < |order| ==> order[i] in r && r[order[i]] == start + i)
            && (forall x :: x in vars || x in order <==> x in r)
            && (forall x :: x in vars && x !in order ==> r[x] == vars[x])
  {
    if order != [] {
      VariablesPlaced(vars, order[..|order| - 1], start);
      assert order == order[..|order| - 1] + [order[|order| - 1]];
    }
  }

  /** The pool entry of a `write`: its address behind the code, and the value it holds. */
  ghost predicate LiteralPlaced(t: A.Tables, lex: A.Lexeme, syms: A.Symbols) {
    && A.PoolAddress(t, lex).Some?
    && var k := A.PoolAddress(t, lex).value - t.first - |t.code|;
       0 <= k < |t.constants| && t.constants[k].text == Value(lex, EnvOf(t), syms)
  }

  ghost predicate LiteralsOk(t: A.Tables, syms: A.Symbols) {
    forall i :: 0 <= i < |t.code| && t.code[i].Line? && t.code[i].cmd == "write" && |t.code[i].args| > 0 ==>
                  LiteralPlaced(t, t.code[i].args[0], syms)
  }

  ghost predicate VariablesOk(t: A.Tables) {
    && (forall i :: 0 <= i < |t.order| ==>
          t.order[i] in t.variables && t.variables[t.order[i]] == t.first + |t.code| + |t.constants| + i)
    && (forall x :: x in t.variables ==> x in t.order)
  }

  lemma LiteralStep(t: A.Tables, first: int, lex: A.Lexeme, syms: A.Symbols)
    requires FirstPassOk(t, first, syms) && SymbolsOk(syms)
    requires A.Fits(lex, A.Values()) && Lexed(lex, syms) && A.RawValue(lex) in t.index
    ensures LiteralPlaced(A.Layout(t), lex, syms)
  {
    hide A.RawValue, A.PooledText, A.Fits, Lexed, SymbolsOk;
    var u, raw := A.Layout(t), A.RawValue(lex);
    var k := t.index[raw];
    assert HasSource(t.constants[k], syms);
    var from :| PooledFrom(t.constants[k], from, syms);
    RawDetermines(lex, from, syms);
    assert u.constants[k] == A.Placed(t.constants[k], t.next + k, t.labels);
    PlacedValue(t.constants[k], t.next + k, lex, EnvOf(u), syms);
  }

  /** The final text of a pool entry is the value of the literal it stands for. */
  lemma PlacedValue(c: A.Constant, addr: int, lex: A.Lexeme, env: Env, syms: A.Symbols)
    requires A.Fits(lex, A.Values()) && Lexed(lex, syms) && SymbolsOk(syms)
    requires c.raw == A.RawValue(lex) && c.text == A.PooledText(lex, syms)
    ensures A.Placed(c, addr, env.labels).text == Value(lex, env, syms)
  {
    RawShape(lex, syms);
    if lex.kind.Label? {
      assert A.RawValue(lex)[6..] == lex.value;
    }
  }

  /** Layout correctness. For accepted sources: the code is the instruction lines in order; a
      label is the position of the instruction behind it; every literal written has one pool
      cell holding its value; variables follow in declaration order; and code, constants and
      variables tile the range from the first address to the next free one. */
  lemma LayoutCorrect(lines: seq<A.Line>, first: int, syms: A.Symbols)
    requires A.Pass1(lines, first, syms).errors == 0 && AllLexed(lines, syms) && SymbolsOk(syms)
    ensures var t := A.Layout(A.Pass1(lines, first, syms));
            && t.first == first && t.code == CodeOf(lines) && t.order == VarsOf(lines)
            && LabelsOk(t, lines) && LiteralsOk(t, syms) && VariablesOk(t)
            && t.next == first + |t.code| + |t.constants| + |t.order|
            && (forall x :: x in t.labels ==> first <= t.labels[x] <= first + |t.code|)
            && (forall i :: 0 <= i < |t.constants| ==> t.constants[i].addr == first + |t.code| + i)
            && (forall i :: 0 <= i < |t.code| ==> ProperCode(t.code[i]) && LineLexed(t.code[i], syms))
  {
    hide A.ProcessLine, A.EmitLexeme, Lexed, A.RawValue, A.PooledText, A.Pass1, A.Fits, CodeOf, VarsOf,
      A.PlaceVariables, A.EmitArgs;
    var s := A.Pass1(lines, first, syms);
    var t := A.Layout(s);
    AcceptedPass(lines, first, syms);
    FirstPassInvariant(lines, first, syms);
    VariablesPlaced(s.variables, s.order, s.next + |s.constants|);
    LabelsSame(s, t, lines);
    forall i | 0 <= i < |t.code|
      ensures ProperCode(t.code[i]) && LineLexed(t.code[i], syms)
      ensures t.code[i].cmd == "write" ==> LiteralPlaced(t, t.code[i].args[0], syms)
    {
      assert CodeLineOk(s, s.code[i], syms);
      if t.code[i].cmd == "write" {
        assert A.Fits(t.code[i].args[0], A.Pattern("write")[0]);
        LiteralStep(s, first, t.code[i].args[0], syms);
      }
    }
  }

  lemma LabelsSame(s: A.Tables, t: A.Tables, lines: seq<A.Line>)
    requires LabelsOk(s, lines) && t.labels == s.labels && t.first == s.first
    ensures LabelsOk(t, lines)
  {
    forall i | 0 <= i < |lines| && lines[i].Line? && lines[i].cmd == "label"
      ensures LabelPlaced(t, lines, i)
    {
      assert LabelPlaced(s, lines, i);
    }
  }
}
