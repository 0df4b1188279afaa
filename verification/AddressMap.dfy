/** Where things live, read off the source lines alone: lines of code, distinct literals and
    variables, in this order. The compiler's tables agree with it. */
module AddressMap {
  import opened Wrappers
  import opened Encoding
  import opened Layout
  import opened Simulation
  import A = Assembler

  // ---- Literals ----

  /** A literal up to equality: quoted text, the address of a label, or a number or built-in name. */
  datatype Literal = Quoted(text: string) | LabelName(name: string) | Bare(word: string)

  function LiteralOf(lex: A.Lexeme): Literal {
    match lex.kind
    case Str => Quoted(lex.value)
    case Label => LabelName(lex.value)
    case _ => Bare(lex.value)
  }

  predicate Writes(line: A.Line) {
    line.Line? && line.cmd == "write" && |line.args| > 0
  }

  /** The distinct literals of all `write` lines, in order of first use. */
  function LiteralsOf(lines: seq<A.Line>): (r: seq<Literal>) {
    if lines == [] then []
    else
      var before, last := LiteralsOf(lines[..|lines| - 1]), lines[|lines| - 1];
      if Writes(last) && LiteralOf(last.args[0]) !in before then before + [LiteralOf(last.args[0])] else before
  }

  function PoolKey(l: Literal): string {
    match l
    case Quoted(s) => "\"" + s + "\""
    case LabelName(s) => "LABEL:" + s
    case Bare(s) => s
  }

  ghost predicate Lexeme(lex: A.Lexeme, l: Literal, syms: A.Symbols) {
    A.Fits(lex, A.Values()) && Lexed(lex, syms) && LiteralOf(lex) == l
  }

  ghost predicate Written(l: Literal, syms: A.Symbols) {
    exists lex :: Lexeme(lex, l, syms)
  }

  lemma KeyOf(lex: A.Lexeme)
    requires A.Fits(lex, A.Values())
    ensures PoolKey(LiteralOf(lex)) == A.RawValue(lex)
  {
  }

  lemma KeyDetermines(a: A.Lexeme, b: A.Lexeme, syms: A.Symbols)
    requires A.Fits(a, A.Values()) && A.Fits(b, A.Values()) && Lexed(a, syms) && Lexed(b, syms) && SymbolsOk(syms)
    requires A.RawValue(a) == A.RawValue(b)
    ensures LiteralOf(a) == LiteralOf(b)
  {
    RawShape(a, syms);
    RawShape(b, syms);
    if a.kind.Str? {
      assert a.value == A.RawValue(a)[1..|A.RawValue(a)| - 1];
      assert b.value == A.RawValue(b)[1..|A.RawValue(b)| - 1];
    } else if a.kind.Label? {
      assert a.value == A.RawValue(a)[6..] && b.value == A.RawValue(b)[6..];
    }
  }

  /** The pool holds exactly the literals seen so far. */
  ghost predicate PoolIs(t: A.Tables, ls: seq<Literal>, syms: A.Symbols) {
    && |ls| == |t.constants|
    && forall i :: 0 <= i < |ls| ==>
         t.constants[i].raw == PoolKey(ls[i]) && PoolKey(ls[i]) in t.index && Written(ls[i], syms)
  }

  lemma PoolAdds(t: A.Tables, ls: seq<Literal>, lex: A.Lexeme, syms: A.Symbols)
    requires PoolOk(t, syms) && PoolIs(t, ls, syms) && A.Fits(lex, A.Values()) && Lexed(lex, syms) && SymbolsOk(syms)
    ensures PoolIs(A.Pool(t, lex, syms), if LiteralOf(lex) in ls then ls else ls + [LiteralOf(lex)], syms)
  {
    hide A.RawValue, A.PooledText, A.Fits, Lexed, SymbolsOk, HasSource, PoolKey, LiteralOf;
    RawNotEmpty(lex, syms);
    KeyOf(lex);
    assert Lexeme(lex, LiteralOf(lex), syms);
    assert Written(LiteralOf(lex), syms);
    if A.RawValue(lex) in t.index {
      var i := t.index[A.RawValue(lex)];
      assert Written(ls[i], syms);
      var from :| Lexeme(from, ls[i], syms);
      KeyOf(from);
      KeyDetermines(lex, from, syms);
      assert ls[i] == LiteralOf(lex);
    }
  }

  lemma {:induction false} PoolIsLiterals(lines: seq<A.Line>, first: int, syms: A.Symbols)
    requires A.Pass1(lines, first, syms).errors == 0 && AllLexed(lines, syms) && SymbolsOk(syms)
    ensures PoolIs(A.Pass1(lines, first, syms), LiteralsOf(lines), syms)
  {
    if lines != [] {
      hide PoolIs, LineLexed, SymbolsOk, FirstPassOk, A.Pool;
      var n := |lines| - 1;
      var before, last := lines[..n], lines[n];
      var t := A.Pass1(before, first, syms);
      assert AllLexed(before, syms) && LineLexed(last, syms);
      LineErrors(t, last, syms);
      PoolIsLiterals(before, first, syms);
      FirstPassInvariant(before, first, syms);
      assert PoolOk(t, syms) by { PassPool(t, first, syms); }
      PoolLine(t, LiteralsOf(before), last, syms);
    } else {
      assert PoolIs(A.Empty(first), [], syms);
    }
  }

  lemma PassPool(t: A.Tables, first: int, syms: A.Symbols)
    requires FirstPassOk(t, first, syms)
    ensures PoolOk(t, syms)
  {
  }

  lemma LineErrors(t: A.Tables, line: A.Line, syms: A.Symbols)
    ensures t.errors <= A.ProcessLine(t, line, syms).errors
  {
    AcceptedLine(t, line, syms);
  }

  lemma PoolLine(t: A.Tables, ls: seq<Literal>, line: A.Line, syms: A.Symbols)
    requires PoolOk(t, syms) && PoolIs(t, ls, syms) && LineLexed(line, syms) && SymbolsOk(syms) && t.errors == 0
    requires A.ProcessLine(t, line, syms).errors == 0
    ensures PoolIs(A.ProcessLine(t, line, syms),
                   if Writes(line) && LiteralOf(line.args[0]) !in ls then ls + [LiteralOf(line.args[0])] else ls, syms)
  {
    hide A.ProcessLine, Lexed, SymbolsOk, LiteralOf, A.Pool, HasSource, Written, PoolKey, A.Fits;
    if Writes(line) {
      WriteLine(t, line, syms);
      var u := t.(code := t.code + [line], next := t.next + 1);
      assert PoolOk(u, syms) && PoolIs(u, ls, syms);
      PoolAdds(u, ls, line.args[0], syms);
    } else {
      OtherKeepsPool(t, line, syms);
    }
  }

  /** An accepted `write` adds a line of code and its literal. */
  lemma WriteLine(t: A.Tables, line: A.Line, syms: A.Symbols)
    requires Writes(line) && t.errors == 0 && A.ProcessLine(t, line, syms).errors == 0
    ensures A.Fits(line.args[0], A.Values())
    ensures A.ProcessLine(t, line, syms) ==
              A.Pool(t.(code := t.code + [line], next := t.next + 1), line.args[0], syms)
  {
    hide A.Fits, A.Pool;
    assert A.Matches(line) ==> A.Fits(line.args[0], A.Pattern("write")[0]);
  }

  lemma OtherKeepsPool(t: A.Tables, line: A.Line, syms: A.Symbols)
    requires !Writes(line)
    ensures var r := A.ProcessLine(t, line, syms); r.constants == t.constants && r.index == t.index
  {
    hide A.Matches, A.Pool;
  }

  // ---- Addresses ----

  function IndexIn(names: seq<string>, x: string): (i: nat)
    ensures i <= |names| && (i < |names| <==> x in names) && (i < |names| ==> names[i] == x)
  {
    if names == [] || names[0] == x then 0 else 1 + IndexIn(names[1..], x)
  }

  /** Code and literals. */
  function FixedLength(lines: seq<A.Line>): nat {
    |CodeOf(lines)| + |LiteralsOf(lines)|
  }

  function Length(lines: seq<A.Line>): nat {
    FixedLength(lines) + |VarsOf(lines)|
  }

  /** Variables follow code and literals in the order of their declarations. */
  function VariableAddress(lines: seq<A.Line>, first: int, x: string): int {
    first + FixedLength(lines) + IndexIn(VarsOf(lines), x)
  }

  /** The line that defines a label. */
  function LabelLine(lines: seq<A.Line>, x: string): (r: Option<nat>)
    ensures r.Some? ==> r.value < |lines| && Declares(lines[r.value], "label", x)
    ensures r.None? ==> forall i :: 0 <= i < |lines| ==> !Declares(lines[i], "label", x)
  {
    if lines == [] then None
    else
      match LabelLine(lines[..|lines| - 1], x)
      case Some(i) => Some(i)
      case None => if Declares(lines[|lines| - 1], "label", x) then Some(|lines| - 1) else None
  }

  function LabelNames(lines: seq<A.Line>): set<string> {
    set i | 0 <= i < |lines| && lines[i].Line? && lines[i].cmd == "label"
      && |lines[i].args| == 1 :: lines[i].args[0].value
  }

  function LabelAddress(lines: seq<A.Line>, first: int, x: string): int {
    match LabelLine(lines, x) case None => -1 case Some(i) => first + Position(lines, i)
  }

  /** The address map of a source. */
  function MapOf(lines: seq<A.Line>, first: int): Env {
    Env(map x | x in LabelNames(lines) :: LabelAddress(lines, first, x),
        map x | x in VarsOf(lines) :: VariableAddress(lines, first, x))
  }

  lemma LabelsMapped(t: A.Tables, lines: seq<A.Line>, first: int)
    requires LabelsOk(t, lines) && t.first == first
    ensures t.labels == MapOf(lines, first).labels
  {
    hide Position;
    forall x
      ensures x in t.labels <==> x in LabelNames(lines)
      ensures x in t.labels ==> t.labels[x] == LabelAddress(lines, first, x)
    {
      if i :| 0 <= i < |lines| && Declares(lines[i], "label", x) {
        assert LabelPlaced(t, lines, i);
        assert LabelPlaced(t, lines, LabelLine(lines, x).value);
      }
    }
  }

  lemma VariablesMapped(t: A.Tables, lines: seq<A.Line>, first: int)
    requires VariablesOk(t) && t.first == first && t.order == VarsOf(lines)
             && |t.code| + |t.constants| == FixedLength(lines)
    ensures t.variables == MapOf(lines, first).variables
  {
    hide FixedLength;
    forall x
      ensures x in t.variables <==> x in VarsOf(lines)
      ensures x in t.variables ==> t.variables[x] == VariableAddress(lines, first, x)
    {
      if x in VarsOf(lines) {
        var i := IndexIn(VarsOf(lines), x);
        assert t.order[i] == x;
      }
    }
  }

  /** The tables of an accepted program say what the address map says: every label, every
      variable, the size of code and pool, and the end. */
  lemma TablesAgree(p: Program)
    requires Accepted(p)
    ensures EnvOf(TablesOf(p)) == MapOf(p.lines, p.first)
    ensures FixedSize(TablesOf(p)) == FixedLength(p.lines) && TablesOf(p).code == CodeOf(p.lines)
    ensures TablesOf(p).first == p.first && TablesOf(p).next == p.first + Length(p.lines) && Distinct(VarsOf(p.lines))
  {
    hide A.Pass1, A.Layout, AllLexed, SymbolsOk;
    LayoutCorrect(p.lines, p.first, p.syms);
    PoolIsLiterals(p.lines, p.first, p.syms);
    PoolSize(p);
    LabelsMapped(TablesOf(p), p.lines, p.first);
    VariablesMapped(TablesOf(p), p.lines, p.first);
    FirstPassInvariant(p.lines, p.first, p.syms);
    OrderDistinct(p);
  }

  lemma PoolSize(p: Program)
    requires PoolIs(A.Pass1(p.lines, p.first, p.syms), LiteralsOf(p.lines), p.syms)
    ensures |TablesOf(p).constants| == |LiteralsOf(p.lines)|
  {
  }

  lemma OrderDistinct(p: Program)
    requires FirstPassOk(A.Pass1(p.lines, p.first, p.syms), p.first, p.syms)
    ensures Distinct(TablesOf(p).order)
  {
  }
}
