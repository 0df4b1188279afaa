/** Which sources the compiler accepts, with the language written out: the eleven commands and the
    forms of their arguments, and what must be declared where. */
module Grammar {
  import opened Wrappers
  import opened Encoding
  import opened Layout
  import A = Assembler

  // ---- The language ----

  predicate Is(lex: A.Lexeme, prefixes: string, kinds: set<A.Kind>) {
    lex.prefix in prefixes && lex.kind in kinds
  }

  /** A cell, given directly or through the cell that holds its address. */
  predicate IsLocation(lex: A.Lexeme) {
    Is(lex, "_*", {A.Number, A.Register, A.Variable})
  }

  /** The lines of the language. Behind the arguments there may be a comment and nothing else. */
  predicate InGrammar(line: A.Line)
    requires line.Line?
  {
    var args := line.args;
    && Is(line.tail, "_", {A.Comment})
    && if line.cmd in {"cpu_exec", "DEBUG_ON", "DEBUG_OFF"} then
         args == []
       else if line.cmd in {"var", "label"} then
         |args| == 1 && Is(args[0], "_", {A.Name})
       else if line.cmd in {"jump", "jump_if", "jump_if_not", "jump_err"} then
         |args| == 1 && (Is(args[0], "_*", {A.Number, A.Label, A.Variable}) || Is(args[0], "*", {A.Register}))
       else if line.cmd == "write" then
         && |args| == 3 && Is(args[1], "_", {A.KeywordTo}) && IsLocation(args[2])
         && Is(args[0], "_", {A.Str, A.Number, A.Operation, A.SysCall, A.Color, A.Mode, A.Label})
       else if line.cmd == "copy" then
         && |args| == 3 && Is(args[1], "_", {A.KeywordTo}) && IsLocation(args[2])
         && (IsLocation(args[0]) || Is(args[0], "@", {A.Variable}))
       else
         false
  }

  ghost predicate Declared(lines: seq<A.Line>, cmd: string, name: string) {
    exists i :: 0 <= i < |lines| && Declares(lines[i], cmd, name)
  }

  predicate SameName(a: A.Line, b: A.Line, cmd: string) {
    && a.Line? && b.Line? && a.cmd == cmd == b.cmd
    && |a.args| == 1 == |b.args| && a.args[0].value == b.args[0].value
  }

  /** Every line is of the language and no name is declared twice as the same thing. */
  ghost predicate LinesOk(lines: seq<A.Line>) {
    && (forall i :: 0 <= i < |lines| && lines[i].Line? ==> InGrammar(lines[i]))
    && (forall i, j :: 0 <= i < j < |lines| ==>
                         !SameName(lines[i], lines[j], "var") && !SameName(lines[i], lines[j], "label"))
  }

  /** Every variable used is declared somewhere in the source, and so is every label jumped to.
      A label that is only written as a value need not be. */
  ghost predicate UsesOk(lines: seq<A.Line>) {
    forall i, k :: 0 <= i < |lines| && lines[i].Line? && 0 <= k < |lines[i].args| ==>
                     UseOk(lines, lines[i].cmd, lines[i].args[k])
  }

  ghost predicate UseOk(lines: seq<A.Line>, cmd: string, lex: A.Lexeme) {
    && (lex.kind.Variable? ==> Declared(lines, "var", lex.value))
    && (lex.kind.Label? && cmd != "write" ==> Declared(lines, "label", lex.value))
  }

  /** A source that the compiler must accept. */
  ghost predicate WellFormed(lines: seq<A.Line>) {
    && LinesOk(lines) && UsesOk(lines)
    && exists i :: 0 <= i < |lines| && lines[i].Line? && lines[i].cmd != "var" && lines[i].cmd != "label"
  }

  // ---- The first pass ----

  lemma MatchesIsGrammar(line: A.Line)
    requires line.Line?
    ensures A.IsKnown(line.cmd) && A.Matches(line) <==> InGrammar(line)
  {
  }

  /** A line adds an error exactly when it is outside the language or declares a name again. */
  lemma LineErrors(t: A.Tables, line: A.Line, syms: A.Symbols)
    ensures A.ProcessLine(t, line, syms).errors ==
              if && line.Line?
                 && (|| !InGrammar(line)
                     || (line.cmd == "var" && line.args[0].value in t.variables)
                     || (line.cmd == "label" && line.args[0].value in t.labels))
              then t.errors + 1 else t.errors
  {
    hide A.Matches, A.RawValue, A.PooledText, A.IsKnown;
    if line.Line? {
      MatchesIsGrammar(line);
    }
  }

  lemma ErrorsStay(t: A.Tables, line: A.Line, syms: A.Symbols)
    ensures t.errors <= A.ProcessLine(t, line, syms).errors
  {
    hide A.Matches, A.RawValue, A.PooledText, A.IsKnown;
  }

  /** A declared name is in the table, and nothing else is. */
  ghost predicate TablesShow(t: A.Tables, lines: seq<A.Line>) {
    && (forall x :: x in t.variables <==> Declared(lines, "var", x))
    && (forall x :: x in t.labels <==> Declared(lines, "label", x))
  }

  lemma DeclaredNext(lines: seq<A.Line>, cmd: string, x: string)
    requires lines != []
    ensures Declared(lines, cmd, x) <==>
              Declared(lines[..|lines| - 1], cmd, x) || Declares(lines[|lines| - 1], cmd, x)
  {
    var n := |lines| - 1;
    if i :| 0 <= i < |lines| && Declares(lines[i], cmd, x) {
      assert i < n ==> Declares(lines[..n][i], cmd, x);
    }
    if i :| 0 <= i < n && Declares(lines[..n][i], cmd, x) {
      assert Declares(lines[i], cmd, x);
    }
  }

  /** A line without an error declares its name, if it is a declaration, and no other. */
  lemma NamesAdded(t: A.Tables, line: A.Line, syms: A.Symbols)
    requires A.ProcessLine(t, line, syms).errors == t.errors
    ensures var u := A.ProcessLine(t, line, syms);
            && (forall x :: x in u.variables <==> x in t.variables || Declares(line, "var", x))
            && (forall x :: x in u.labels <==> x in t.labels || Declares(line, "label", x))
  {
    hide A.RawValue, A.PooledText, A.Fits;
  }

  /** One more line while there is no error. */
  lemma ShowsNext(t: A.Tables, lines: seq<A.Line>, syms: A.Symbols)
    requires lines != [] && TablesShow(t, lines[..|lines| - 1])
    requires A.ProcessLine(t, lines[|lines| - 1], syms).errors == t.errors
    ensures TablesShow(A.ProcessLine(t, lines[|lines| - 1], syms), lines)
  {
    hide Declared, Declares, A.ProcessLine;
    NamesAdded(t, lines[|lines| - 1], syms);
    forall x
      ensures Declared(lines, "var", x) <==>
                Declared(lines[..|lines| - 1], "var", x) || Declares(lines[|lines| - 1], "var", x)
      ensures Declared(lines, "label", x) <==>
                Declared(lines[..|lines| - 1], "label", x) || Declares(lines[|lines| - 1], "label", x)
    {
      DeclaredNext(lines, "var", x);
      DeclaredNext(lines, "label", x);
    }
  }

  /** The last line is of the language and declares nothing that an earlier one does. */
  ghost predicate LastOk(before: seq<A.Line>, last: A.Line) {
    last.Line? ==>
      && InGrammar(last)
      && (last.cmd == "var" ==> !Declared(before, "var", last.args[0].value))
      && (last.cmd == "label" ==> !Declared(before, "label", last.args[0].value))
  }

  lemma LinesNext(lines: seq<A.Line>)
    requires lines != []
    ensures LinesOk(lines) <==> LinesOk(lines[..|lines| - 1]) && LastOk(lines[..|lines| - 1], lines[|lines| - 1])
  {
    var n := |lines| - 1;
    var before, last := lines[..n], lines[n];
    if LinesOk(lines) {
      assert forall i :: 0 <= i < n ==> before[i] == lines[i];
      assert last.Line? ==> InGrammar(last);
      forall i | last.Line? && |last.args| == 1 && 0 <= i < n
        ensures !(last.cmd == "var" && Declares(before[i], "var", last.args[0].value))
        ensures !(last.cmd == "label" && Declares(before[i], "label", last.args[0].value))
      {
        assert !SameName(lines[i], lines[n], "var") && !SameName(lines[i], lines[n], "label");
      }
    }
    if LinesOk(before) && LastOk(before, last) {
      forall i, j | 0 <= i < j < |lines|
        ensures !SameName(lines[i], lines[j], "var") && !SameName(lines[i], lines[j], "label")
      {
        assert j < n ==> before[i] == lines[i] && before[j] == lines[j];
        assert before[i] == lines[i];
      }
      forall i | 0 <= i < |lines| && lines[i].Line? ensures InGrammar(lines[i]) {
        assert i < n ==> before[i] == lines[i];
      }
    }
  }

  lemma NothingDeclared(first: int)
    ensures LinesOk([]) && TablesShow(A.Empty(first), [])
  {
  }

  /** While the tables show the lines before it, the last line is in order if it adds no error. */
  lemma LastErrors(t: A.Tables, before: seq<A.Line>, last: A.Line, syms: A.Symbols)
    requires TablesShow(t, before)
    ensures A.ProcessLine(t, last, syms).errors == if LastOk(before, last) then t.errors else t.errors + 1
  {
    hide A.ProcessLine, Declared;
    LineErrors(t, last, syms);
  }

  /** The first pass finds no error exactly when every line is of the language and no name is
      declared twice. */
  lemma {:induction false} CleanPass(lines: seq<A.Line>, first: int, syms: A.Symbols)
    ensures A.Pass1(lines, first, syms).errors == 0 <==> LinesOk(lines)
    ensures LinesOk(lines) ==> TablesShow(A.Pass1(lines, first, syms), lines)
  {
    hide A.ProcessLine, LinesOk, TablesShow, LastOk;
    if lines == [] {
      NothingDeclared(first);
    } else {
      var before, last := lines[..|lines| - 1], lines[|lines| - 1];
      var s := A.Pass1(before, first, syms);
      CleanPass(before, first, syms);
      LinesNext(lines);
      ErrorsStay(s, last, syms);
      if LinesOk(before) {
        LastErrors(s, before, last, syms);
        if LastOk(before, last) {
          ShowsNext(s, lines, syms);
        }
      }
    }
  }

  // ---- The whole compilation ----

  lemma {:induction false} CodeShows(lines: seq<A.Line>)
    ensures forall line :: line in CodeOf(lines) <==> line in lines && A.IsCode(line)
  {
    if lines != [] {
      var n := |lines| - 1;
      CodeShows(lines[..n]);
      assert lines == lines[..n] + [lines[n]];
    }
  }

  lemma {:induction false} PlacedNames(vars: map<string, int>, order: seq<string>, start: int)
    ensures forall x :: x in A.PlaceVariables(vars, order, start) <==> x in vars || x in order
  {
    if order != [] {
      var n := |order| - 1;
      PlacedNames(vars, order[..n], start);
      assert order == order[..n] + [order[n]];
    }
  }

  /** Both passes: the tables lack no name that is used. */
  lemma UsesAreDefined(lines: seq<A.Line>, t: A.Tables)
    requires LinesOk(lines) && TablesShow(t, lines) && A.CodeLines(t.code)
    requires forall line :: line in t.code <==> line in lines && A.IsCode(line)
    ensures UsesOk(lines) <==> forall i :: 0 <= i < |t.code| ==> NamesDefined(t, t.code[i])
  {
    hide LinesOk, Declared;
    if UsesOk(lines) {
      forall i | 0 <= i < |t.code| ensures NamesDefined(t, t.code[i]) {
        assert t.code[i] in lines;
        var n :| 0 <= n < |lines| && lines[n] == t.code[i];
        forall k | 0 <= k < |t.code[i].args|
          ensures NameDefined(t, t.code[i].args[k], t.code[i].cmd == "write" && k == 0)
        {
          KindsUsed(lines, n, k);
          assert UseOk(lines, lines[n].cmd, lines[n].args[k]);
        }
      }
    }
    if forall i :: 0 <= i < |t.code| ==> NamesDefined(t, t.code[i]) {
      forall i, k | 0 <= i < |lines| && lines[i].Line? && 0 <= k < |lines[i].args|
        ensures UseOk(lines, lines[i].cmd, lines[i].args[k])
      {
        KindsUsed(lines, i, k);
        if A.IsCode(lines[i]) {
          var n :| 0 <= n < |t.code| && t.code[n] == lines[i];
          assert NameDefined(t, t.code[n].args[k], t.code[n].cmd == "write" && k == 0);
        }
      }
    }
  }

  /** Only instructions use names, and only the first argument of a `write` or a jump is a label. */
  lemma KindsUsed(lines: seq<A.Line>, i: nat, k: nat)
    requires LinesOk(lines) && i < |lines| && lines[i].Line? && k < |lines[i].args|
    ensures !A.IsCode(lines[i]) ==> lines[i].args[k].kind.Name?
    ensures lines[i].args[k].kind.Label? ==> k == 0
  {
    assert InGrammar(lines[i]);
  }

  /** The compiler's own conditions for an image. */
  ghost predicate GivesImage(lines: seq<A.Line>, first: int, syms: A.Symbols) {
    var t := A.Layout(A.Pass1(lines, first, syms));
    && t.errors == 0 && |t.code| > 0 && A.CodeLines(t.code)
    && forall i :: 0 <= i < |t.code| ==> A.EmitsCleanly(t, t.code[i], syms)
  }

  lemma LayoutKeepsNames(s: A.Tables, lines: seq<A.Line>)
    requires TablesShow(s, lines) && forall x :: x in s.order ==> x in s.variables
    ensures TablesShow(A.Layout(s), lines)
  {
    hide Declared;
    PlacedNames(s.variables, s.order, s.next + |s.constants|);
  }

  lemma OrderIsShown(s: A.Tables, first: int, syms: A.Symbols)
    requires FirstPassOk(s, first, syms)
    ensures forall x :: x in s.order ==> x in s.variables
  {
  }

  /** The compiler gives an image exactly for the well-formed sources. */
  lemma AcceptedIffWellFormed(lines: seq<A.Line>, first: int, syms: A.Symbols)
    requires AllLexed(lines, syms) && SymbolsOk(syms)
    ensures GivesImage(lines, first, syms) <==> WellFormed(lines)
  {
    hide A.Pass1, A.EmitsCleanly, NamesDefined, UsesOk, LinesOk, TablesShow, A.PlaceVariables, A.PlaceConstants,
      SymbolsOk, CodeOf, VarsOf, LabelsOk, LiteralsOk, VariablesOk, LineLexed, FirstPassOk;
    var s := A.Pass1(lines, first, syms);
    var t := A.Layout(s);
    CleanPass(lines, first, syms);
    if LinesOk(lines) {
      LayoutCorrect(lines, first, syms);
      FirstPassInvariant(lines, first, syms);
      OrderIsShown(s, first, syms);
      LayoutKeepsNames(s, lines);
      CodeShows(lines);
      UsesAreDefined(lines, t);
      forall i | 0 <= i < |t.code| ensures A.EmitsCleanly(t, t.code[i], syms) <==> NamesDefined(t, t.code[i]) {
        AcceptedIffDefined(t, t.code[i], syms);
      }
      assert |t.code| > 0 <==> exists i :: 0 <= i < |lines| && A.IsCode(lines[i]) by {
        if |t.code| > 0 {
          assert t.code[0] in lines;
        }
        if i :| 0 <= i < |lines| && A.IsCode(lines[i]) {
          assert lines[i] in t.code;
        }
      }
    }
  }
}
