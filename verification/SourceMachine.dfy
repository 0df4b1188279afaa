/** The source machine: a program is at a source line, its variables are a store of names, and
    labels are lines. The compiled image, run by the CPU, goes through the same states. */
module SourceMachine {
  import opened Wrappers
  import opened Text
  import opened Hardware
  import opened Isolation
  import opened Encoding
  import opened Layout
  import opened Simulation
  import opened AddressMap
  import A = Assembler

  // ---- States ----

  /** In the program, in front of a source line; or elsewhere, with the text of the program counter. */
  datatype Where = Front(line: nat) | Elsewhere(pc: string)

  /** The cells of `rest` that belong to variables and to the program counter are not looked at. */
  datatype Source = Source(where: Where, store: map<string, string>, rest: Machine)

  /** The mode that the program runs in and the cell that its first address denotes there. */
  datatype Site = Site(kernel: bool, base: int)

  function StoreStart(p: Program, s: Site): int {
    s.base + FixedLength(p.lines)
  }

  /** The program lies in memory behind the system registers, and the store holds its variables. */
  ghost predicate Fits(p: Program, s: Site, x: Source) {
    && Valid(x.rest) && HW_TIMER < s.base && s.base + Length(p.lines) <= |x.rest.cells|
    && x.store.Keys == Names(p) && (x.where.Front? ==> x.where.line <= |p.lines|)
  }

  function Names(p: Program): set<string> {
    set x | x in VarsOf(p.lines)
  }

  function Lookup(x: Source, name: string): string {
    if name in x.store then x.store[name] else ""
  }

  function PcText(p: Program, where: Where): string {
    match where
    case Front(i) => PrintInt(p.first + Position(p.lines, if i <= |p.lines| then i else |p.lines|) - 1)
    case Elsewhere(pc) => pc
  }

  /** What cell q holds. */
  function CellOf(p: Program, s: Site, x: Source, q: nat): string
    requires q < |x.rest.cells|
  {
    if q == PROGRAM_COUNTER then PcText(p, x.where)
    else if 0 <= q - StoreStart(p, s) < |VarsOf(p.lines)| then Lookup(x, VarsOf(p.lines)[q - StoreStart(p, s)])
    else x.rest.cells[q]
  }

  /** The machine that a source state stands for. */
  function Conc(p: Program, s: Site, x: Source): (m: Machine)
    ensures |m.cells| == |x.rest.cells|
    ensures forall q :: 0 <= q < |m.cells| ==> m.cells[q] == CellOf(p, s, x, q)
    ensures m.kernel == x.rest.kernel && m.status == x.rest.status && m.disks == x.rest.disks
  {
    x.rest.(cells := seq(|x.rest.cells|, q requires 0 <= q < |x.rest.cells| => CellOf(p, s, x, q)))
  }

  /** The k-th line of code. */
  function LineAt(lines: seq<A.Line>, k: nat): (i: nat)
    requires k < |CodeOf(lines)|
    ensures i < |lines| && Position(lines, i) == k && A.IsCode(lines[i]) && lines[i] == CodeOf(lines)[k]
  {
    var n := |lines| - 1;
    if k < |CodeOf(lines[..n])| then
      var i := LineAt(lines[..n], k);
      assert lines[..n][..i] == lines[..i];
      i
    else n
  }

  /** The first line of code at or behind line i. */
  function NextCode(lines: seq<A.Line>, i: nat): (r: Option<nat>)
    ensures r.Some? ==> i <= r.value < |lines| && A.IsCode(lines[r.value]) && forall j :: i <= j < r.value ==>
              !A.IsCode(lines[j])
    ensures r.None? ==> forall j :: i <= j < |lines| ==> !A.IsCode(lines[j])
    decreases |lines| - i
  {
    if i >= |lines| then None else if A.IsCode(lines[i]) then Some(i) else NextCode(lines, i + 1)
  }

  function WhereOf(p: Program, s: Site, kernel: bool, text: string): (w: Where)
    ensures w.Front? ==> kernel == s.kernel && w.line <= |p.lines|
    ensures PcText(p, w) == text
  {
    match Stoi(text)
    case None => Elsewhere(text)
    case Some(pc) =>
      if kernel == s.kernel && 0 <= pc + 1 - p.first < |CodeOf(p.lines)| && text == PrintInt(pc)
      then Front(LineAt(p.lines, pc + 1 - p.first)) else Elsewhere(text)
  }

  function Abs(p: Program, s: Site, m: Machine): (x: Source)
    requires Valid(m) && HW_TIMER < s.base && s.base + Length(p.lines) <= |m.cells|
    ensures Fits(p, s, x) && x.rest == m
  {
    Source(WhereOf(p, s, m.kernel, m.cells[PROGRAM_COUNTER]),
           map name | name in VarsOf(p.lines) :: m.cells[StoreStart(p, s) + IndexIn(VarsOf(p.lines), name)], m)
  }

  // ---- The meaning of a line ----

  /** An operand: a text, a variable, the cell that a variable points to, a cell, the cell that a
      cell points to, or a number that the CPU refuses. */
  datatype Ref = Say(text: string) | Var(name: string) | Via(name: string) | Cell(addr: int) | Through(ptr: int) | Bad
    | BadVia

  function RefOf(p: Program, lex: A.Lexeme): Ref {
    if lex.kind.Variable? then
      if lex.prefix == '@' then Say(PrintInt(VariableAddress(p.lines, p.first, lex.value)))
      else if lex.prefix == '*' then Via(lex.value) else Var(lex.value)
    else
      match (if lex.kind.Number? then Stoi(lex.value) else Some(A.NumericSymbol(lex.value, p.syms)))
      case None => if lex.prefix == '*' then BadVia else Bad
      case Some(a) => if lex.prefix == '*' then Through(a) else Cell(a)
  }

  /** The text of a literal. */
  function TextOf(p: Program, lex: A.Lexeme): string {
    match lex.kind
    case Str => lex.value
    case Number => lex.value
    case Label => if LabelLine(p.lines, lex.value).Some? then PrintInt(LabelAddress(p.lines, p.first, lex.value))
      else ""
    case Mode => A.TextSymbol(lex.value, p.syms)
    case _ => PrintInt(A.NumericSymbol(lex.value, p.syms))
  }

  /** A variable or a numeric address; none where the CPU refuses the number. */
  datatype Spot = Named(name: string) | Address(addr: int)
  datatype Found = Found(spot: Option<Spot>, signal: Signal)
  datatype Effect = Effect(x: Source, signal: Signal)

  /** Numeric addresses denote cells, which may be those of variables. */
  function ReadSpot(p: Program, s: Site, x: Source, spot: Spot): ReadResult
    requires Valid(x.rest)
  {
    match spot
    case Named(name) => ReadResult(Lookup(x, name), Done)
    case Address(a) =>
      match Locate(x.rest, a)
      case At(q) => ReadResult(CellOf(p, s, x, q), Done)
      case Refused => ReadResult("", MemoryFault)
      case Outside => ReadResult("", Wild)
  }

  function WriteName(x: Source, name: string, v: string): (r: Source)
    ensures r.store.Keys == x.store.Keys
  {
    if name in x.store then x.(store := x.store[name := v]) else x
  }

  function WriteCell(p: Program, s: Site, x: Source, q: nat, v: string): (r: Source)
    requires q < |x.rest.cells|
    ensures Fits(p, s, x) ==> Fits(p, s, r)
  {
    if q == PROGRAM_COUNTER then x.(where := WhereOf(p, s, x.rest.kernel, v))
    else if 0 <= q - StoreStart(p, s) < |VarsOf(p.lines)| then WriteName(x, VarsOf(p.lines)[q - StoreStart(p, s)], v)
    else x.(rest := Put(x.rest, q, v))
  }

  function WriteSpot(p: Program, s: Site, x: Source, spot: Spot, v: string): (e: Effect)
    requires Valid(x.rest)
    ensures Fits(p, s, x) ==> Fits(p, s, e.x)
  {
    match spot
    case Named(name) => Effect(WriteName(x, name, v), Done)
    case Address(a) =>
      match Locate(x.rest, a)
      case At(q) => Effect(WriteCell(p, s, x, q, v), Done)
      case Refused => Effect(x, MemoryFault)
      case Outside => Effect(x, Wild)
  }

  function Pointed(text: string): Option<Spot> {
    match Stoi(text) case None => None case Some(a) => Some(Address(a))
  }

  function Find(p: Program, s: Site, x: Source, r: Ref): Found
    requires Valid(x.rest)
  {
    match r
    case Say(_) => Found(None, Done)
    case Var(name) => Found(Some(Named(name)), Done)
    case Via(name) => Found(Pointed(Lookup(x, name)), Done)
    case Cell(a) => Found(Some(Address(a)), Done)
    case Through(a) => var c := ReadSpot(p, s, x, Address(a)); Found(Pointed(c.value), c.signal)
    case Bad => Found(None, Done)
    case BadVia => Found(None, Thrown)
  }

  function Move(p: Program, s: Site, x: Source, src: Ref, dst: Ref): (e: Effect)
    requires Valid(x.rest)
    ensures Fits(p, s, x) ==> Fits(p, s, e.x)
  {
    var f := Find(p, s, x, src);
    if f.signal != Done then Effect(x, f.signal)
    else
      var d := Find(p, s, x, dst);
      if d.signal != Done then Effect(x, d.signal)
      else if d.spot.None? then Effect(x, Thrown)
      else if src.Say? then WriteSpot(p, s, x, d.spot.value, src.text)
      else if f.spot.None? then Effect(x, Thrown)
      else
        var c := ReadSpot(p, s, x, f.spot.value);
        if c.signal != Done then Effect(x, c.signal) else WriteSpot(p, s, x, d.spot.value, c.value)
  }

  /** The address of a spot; a jump may go to the address of a variable. */
  function SpotAddress(p: Program, spot: Spot): int {
    match spot
    case Named(name) => VariableAddress(p.lines, p.first, name)
    case Address(a) => a
  }

  /** A jump to a label goes in front of the line that defines it. */
  function Go(p: Program, s: Site, x: Source, cond: Condition, target: A.Lexeme): (e: Effect)
    requires Valid(x.rest)
    ensures Fits(p, s, x) ==> Fits(p, s, e.x)
  {
    if target.kind.Label? then
      match LabelLine(p.lines, target.value)
      case None => Effect(x, Thrown)
      case Some(i) => Effect(if Taken(x.rest, cond) then x.(where := Front(i)) else x, Done)
    else
      var f := Find(p, s, x, RefOf(p, target));
      if f.signal != Done then Effect(x, f.signal)
      else if f.spot.None? then Effect(x, Thrown)
      else Effect(if Taken(x.rest, cond) then
          x.(where := WhereOf(p, s, x.rest.kernel, PrintInt(SpotAddress(p, f.spot.value) - 1))) else x, Done)
  }

  /** The CPU operations work on the registers, the disks and the record of the interrupted program. */
  function Operate(p: Program, s: Site, x: Source, input: Inputs): (e: Effect)
    requires Fits(p, s, x)
    ensures Fits(p, s, e.x)
  {
    var o := ExecOperation(Conc(p, s, x), input);
    Effect(Abs(p, s, o.m), o.signal)
  }

  function Act(p: Program, s: Site, x: Source, line: A.Line, input: Inputs): (e: Effect)
    requires Fits(p, s, x) && ProperCode(line)
    ensures Fits(p, s, e.x)
  {
    if line.cmd == "cpu_exec" then Operate(p, s, x, input)
    else if line.cmd == "copy" then Move(p, s, x, RefOf(p, line.args[0]), RefOf(p, line.args[2]))
    else if line.cmd == "write" then Move(p, s, x, Say(TextOf(p, line.args[0])), RefOf(p, line.args[2]))
    else if A.IsMark(line.cmd) then Effect(x, Done)
    else Go(p, s, x, JumpCondition(line.cmd), line.args[0])
  }

  /** The line that runs next, if the program is at one. */
  function Here(p: Program, s: Site, x: Source): (r: Option<nat>)
    ensures r.Some? ==> r.value < |p.lines| && ProperCode(p.lines[r.value])
  {
    if x.where.Front? && x.rest.kernel == s.kernel then
      match NextCode(p.lines, x.where.line)
      case Some(j) => if ProperCode(p.lines[j]) then Some(j) else None
      case None => None
    else None
  }

  /** The state in which the line acts: behind it, with the polled key. */
  function Behind(x: Source, j: nat, input: Inputs): Source
    requires Valid(x.rest)
  {
    x.(where := Front(j + 1), rest := Poll(x.rest, input))
  }

  /** Faults, traps and the timer belong to the CPU. */
  function Settled(p: Program, s: Site, e: Effect, input: Inputs): (r: Source)
    requires Fits(p, s, e.x)
    ensures Fits(p, s, r)
  {
    if e.signal.Done? && e.x.rest.kernel then e.x
    else Abs(p, s, TimerPhase(Settle(Outcome(Conc(p, s, e.x), e.signal), input)))
  }

  /** One step: the line acts, or, elsewhere, the machine does. */
  function SourceStep(p: Program, s: Site, x: Source, input: Inputs): (r: Source)
    requires Fits(p, s, x)
    ensures Fits(p, s, r)
  {
    if !x.rest.status.Running? then x
    else
      match Here(p, s, x)
      case None => Abs(p, s, Step(Conc(p, s, x), input))
      case Some(j) =>
        if A.IsMark(p.lines[j].cmd) then x.(where := Front(j + 1))
        else
          Settled(p, s, Act(p, s, Behind(x, j, input), p.lines[j], input), input)
  }

  // ---- Concretion commutes ----

  lemma IndexOfItself(names: seq<string>, i: nat)
    requires Distinct(names) && i < |names|
    ensures IndexIn(names, names[i]) == i
  {
    var k := IndexIn(names, names[i]);
    assert names[k] == names[i];
  }

  lemma ConcOfAbs(p: Program, s: Site, m: Machine)
    requires Valid(m) && HW_TIMER < s.base && s.base + Length(p.lines) <= |m.cells| && Distinct(VarsOf(p.lines))
    ensures Conc(p, s, Abs(p, s, m)) == m
  {
    hide PcText, WhereOf, FixedLength;
    var x := Abs(p, s, m);
    var names := VarsOf(p.lines);
    forall q | 0 <= q < |m.cells|
      ensures CellOf(p, s, x, q) == m.cells[q]
    {
      var i := q - StoreStart(p, s);
      if q != PROGRAM_COUNTER && 0 <= i < |names| {
        IndexOfItself(names, i);
        assert names[i] in names;
      }
    }
    assert Conc(p, s, x).cells == m.cells;
  }

  lemma ConcPut(p: Program, s: Site, x: Source, q: nat, v: string)
    requires Fits(p, s, x) && Distinct(VarsOf(p.lines)) && q < |x.rest.cells|
    ensures Conc(p, s, WriteCell(p, s, x, q, v)) == Put(Conc(p, s, x), q, v)
  {
    hide CellOf, WriteCell, Fits;
    var y := WriteCell(p, s, x, q, v);
    WrittenRest(p, s, x, q, v);
    forall c | 0 <= c < |x.rest.cells|
      ensures CellOf(p, s, y, c) == if c == q then v else CellOf(p, s, x, c)
    {
      WrittenCell(p, s, x, q, v, c);
    }
    assert Conc(p, s, y).cells == Put(Conc(p, s, x), q, v).cells;
  }

  lemma WrittenRest(p: Program, s: Site, x: Source, q: nat, v: string)
    requires q < |x.rest.cells|
    ensures var r := WriteCell(p, s, x, q, v).rest;
            |r.cells| == |x.rest.cells| && r.kernel == x.rest.kernel && r.status == x.rest.status
              && r.disks == x.rest.disks
  {
    hide WhereOf, FixedLength;
  }

  lemma WrittenCell(p: Program, s: Site, x: Source, q: nat, v: string, c: nat)
    requires Fits(p, s, x) && Distinct(VarsOf(p.lines)) && q < |x.rest.cells| && c < |x.rest.cells|
    ensures |WriteCell(p, s, x, q, v).rest.cells| == |x.rest.cells|
    ensures CellOf(p, s, WriteCell(p, s, x, q, v), c) == if c == q then v else CellOf(p, s, x, c)
  {
    hide PcText, WhereOf, FixedLength;
    var names, i, k := VarsOf(p.lines), c - StoreStart(p, s), q - StoreStart(p, s);
    if 0 <= i < |names| {
      IndexOfItself(names, i);
      assert names[i] in Names(p);
    }
    if 0 <= k < |names| {
      IndexOfItself(names, k);
      assert names[k] in Names(p);
    }
  }

  /** Registers and process bounds are those of the rest. */
  lemma ConcLow(p: Program, s: Site, x: Source)
    requires Fits(p, s, x)
    ensures forall q :: 0 <= q <= HW_TIMER && q != PROGRAM_COUNTER ==> Conc(p, s, x).cells[q] == x.rest.cells[q]
    ensures ProcStart(Conc(p, s, x)) == ProcStart(x.rest) && ProcEnd(Conc(p, s, x)) == ProcEnd(x.rest)
    ensures forall a :: Locate(Conc(p, s, x), a) == Locate(x.rest, a)
    ensures forall cond :: Taken(Conc(p, s, x), cond) == Taken(x.rest, cond)
  {
    hide FixedLength, Stoi, BoundOf, PcText, Lookup;
    var m := Conc(p, s, x);
    forall q | 0 <= q <= HW_TIMER && q != PROGRAM_COUNTER
      ensures m.cells[q] == x.rest.cells[q]
    {
      assert m.cells[q] == CellOf(p, s, x, q);
    }
  }

  /** The program's block is visible at its addresses. */
  ghost predicate Home(p: Program, s: Site, m: Machine)
    requires Valid(m)
  {
    && m.kernel == s.kernel
    && (if s.kernel then s.base == p.first
        else s.base == p.first + ProcStart(m) && s.base + Length(p.lines) <= ProcEnd(m) + 1)
  }

  /** A variable's address denotes its cell. */
  lemma NameIsCell(p: Program, s: Site, x: Source, name: string)
    requires Fits(p, s, x) && Home(p, s, x.rest) && USER_SPACE_START <= p.first && name in VarsOf(p.lines)
    ensures Locate(x.rest, VariableAddress(p.lines, p.first, name)) ==
              At(StoreStart(p, s) + IndexIn(VarsOf(p.lines), name))
  {
    hide FixedLength;
  }

  /** The address that a spot stands for. */
  function Lower(p: Program, r: Ref): Operand {
    match r
    case Say(t) => Literal(t)
    case Var(name) => Direct(VariableAddress(p.lines, p.first, name))
    case Via(name) => Indirect(VariableAddress(p.lines, p.first, name))
    case Cell(a) => Direct(a)
    case Through(a) => Indirect(a)
    case Bad => Junk
    case BadVia => JunkIndirect
  }

  /** The named variable, if any, is declared. */
  ghost predicate Declared(p: Program, r: Ref) {
    match r
    case Var(name) => name in VarsOf(p.lines)
    case Via(name) => name in VarsOf(p.lines)
    case _ => true
  }

  ghost predicate SpotDeclared(p: Program, spot: Spot) {
    spot.Named? ==> spot.name in VarsOf(p.lines)
  }

  lemma ReadsSpot(p: Program, s: Site, x: Source, spot: Spot)
    requires Fits(p, s, x) && Home(p, s, x.rest) && USER_SPACE_START <= p.first && SpotDeclared(p, spot)
    ensures Read(Conc(p, s, x), SpotAddress(p, spot)) == ReadSpot(p, s, x, spot)
  {
    hide FixedLength, Locate, Lookup, PcText, Home, VariableAddress;
    ConcLow(p, s, x);
    if spot.Named? {
      NameIsCell(p, s, x, spot.name);
      CellOfName(p, s, x, spot.name);
    }
  }

  lemma CellOfName(p: Program, s: Site, x: Source, name: string)
    requires Fits(p, s, x) && name in VarsOf(p.lines)
    ensures var q := StoreStart(p, s) + IndexIn(VarsOf(p.lines), name);
            0 <= q < |x.rest.cells| && CellOf(p, s, x, q) == Lookup(x, name)
  {
    hide FixedLength;
  }

  lemma WritesSpot(p: Program, s: Site, x: Source, spot: Spot, v: string)
    requires Fits(p, s, x) && Home(p, s, x.rest) && USER_SPACE_START <= p.first && SpotDeclared(p, spot)
             && Distinct(VarsOf(p.lines))
    ensures var e := WriteSpot(p, s, x, spot, v);
            Write(Conc(p, s, x), SpotAddress(p, spot), v) == Outcome(Conc(p, s, e.x), e.signal)
  {
    hide FixedLength, Locate, Lookup, PcText, Home, VariableAddress, Conc;
    ConcLow(p, s, x);
    match spot
    case Named(name) =>
      NameIsCell(p, s, x, name);
      var q := StoreStart(p, s) + IndexIn(VarsOf(p.lines), name);
      CellOfName(p, s, x, name);
      ConcPut(p, s, x, q, v);
      assert WriteCell(p, s, x, q, v) == WriteName(x, name, v);
    case Address(a) =>
      if Locate(x.rest, a).At? {
        ConcPut(p, s, x, Locate(x.rest, a).index, v);
      }
  }

  lemma Finds(p: Program, s: Site, x: Source, r: Ref)
    requires Fits(p, s, x) && Home(p, s, x.rest) && USER_SPACE_START <= p.first && Declared(p, r)
    ensures var f, o := Find(p, s, x, r), Pointer(Conc(p, s, x), Lower(p, r));
            && f.signal == o.signal && (f.spot.Some? ==> SpotDeclared(p, f.spot.value))
            && (f.signal.Done? ==>
                 o.addr == match f.spot case None => None case Some(spot) => Some(SpotAddress(p, spot)))
  {
    hide FixedLength, Locate, Lookup, PcText, Home, VariableAddress, Conc, Read, ReadSpot;
    match r
    case Via(name) =>
      ReadsSpot(p, s, x, Named(name));
      assert ReadSpot(p, s, x, Named(name)) == ReadResult(Lookup(x, name), Done) by { ReadName(p, s, x, name); }
    case Through(a) => ReadsSpot(p, s, x, Address(a));
    case _ =>
  }

  lemma ReadName(p: Program, s: Site, x: Source, name: string)
    requires Valid(x.rest)
    ensures ReadSpot(p, s, x, Named(name)) == ReadResult(Lookup(x, name), Done)
  {
  }

  lemma Moves(p: Program, s: Site, x: Source, src: Ref, dst: Ref)
    requires Fits(p, s, x) && Home(p, s, x.rest) && USER_SPACE_START <= p.first && Distinct(VarsOf(p.lines))
    requires Declared(p, src) && Declared(p, dst)
    ensures var e := Move(p, s, x, src, dst);
            ExecCopy(Conc(p, s, x), Lower(p, src), Lower(p, dst)) == Outcome(Conc(p, s, e.x), e.signal)
  {
    hide Fits, Home, Find, Pointer, Read, Write, ReadSpot, WriteSpot, Conc, SpotAddress, Declared, SpotDeclared,
      VariableAddress;
    assert Valid(x.rest) by { FitsValid(p, s, x); }
    Finds(p, s, x, src);
    Finds(p, s, x, dst);
    var f, d := Find(p, s, x, src), Find(p, s, x, dst);
    if f.signal.Done? && d.signal.Done? && d.spot.Some? {
      if src.Say? {
        WritesSpot(p, s, x, d.spot.value, src.text);
      } else if f.spot.Some? {
        ReadsSpot(p, s, x, f.spot.value);
        WritesSpot(p, s, x, d.spot.value, ReadSpot(p, s, x, f.spot.value).value);
      }
    }
  }

  lemma FitsValid(p: Program, s: Site, x: Source)
    requires Fits(p, s, x)
    ensures Valid(x.rest) && Valid(Conc(p, s, x))
  {
  }

  // ---- Operands and literals ----

  lemma RefLowers(p: Program, lex: A.Lexeme)
    requires Lexed(lex, p.syms) && A.Fits(lex, A.Places() + {('@', A.Variable)})
    requires lex.kind.Variable? ==> lex.value in VarsOf(p.lines)
    ensures Lower(p, RefOf(p, lex)) == Encoding.Place(lex, MapOf(p.lines, p.first), p.syms)
            && Declared(p, RefOf(p, lex))
  {
    hide VariableAddress, LabelAddress, Stoi, PrintInt;
  }

  lemma LabelIsMapped(p: Program, name: string)
    ensures name in MapOf(p.lines, p.first).labels <==> LabelLine(p.lines, name).Some?
    ensures name in MapOf(p.lines, p.first).labels ==>
              MapOf(p.lines, p.first).labels[name] == LabelAddress(p.lines, p.first, name)
  {
    hide LabelAddress, VariableAddress;
    if LabelLine(p.lines, name).Some? {
      var i := LabelLine(p.lines, name).value;
      assert p.lines[i].args[0].value in LabelNames(p.lines);
    }
    if name in LabelNames(p.lines) {
      var i :| 0 <= i < |p.lines| && p.lines[i].Line? && p.lines[i].cmd == "label" && |p.lines[i].args| == 1
        && p.lines[i].args[0].value == name;
      assert Declares(p.lines[i], "label", name);
    }
  }

  lemma TextIsValue(p: Program, lex: A.Lexeme)
    ensures TextOf(p, lex) == Value(lex, MapOf(p.lines, p.first), p.syms)
  {
    hide LabelAddress, MapOf, PrintInt;
    LabelIsMapped(p, lex.value);
  }

  // ---- Acting ----

  /** A jump to a label is a jump to the position of its line. */
  lemma GoesToLabel(p: Program, s: Site, x: Source, cond: Condition, target: A.Lexeme)
    requires Fits(p, s, x) && target.kind.Label? && LabelLine(p.lines, target.value).Some?
    ensures var e := Go(p, s, x, cond, target);
            ExecJump(Conc(p, s, x), cond, Target(target, MapOf(p.lines, p.first), p.syms)) ==
                Outcome(Conc(p, s, e.x), e.signal)
  {
    hide PrintInt, MapOf, Position, FixedLength;
    LabelIsMapped(p, target.value);
    ConcLow(p, s, x);
    var i := LabelLine(p.lines, target.value).value;
    var a := LabelAddress(p.lines, p.first, target.value);
    assert Target(target, MapOf(p.lines, p.first), p.syms) == Direct(a);
    assert a == p.first + Position(p.lines, i);
    if Taken(x.rest, cond) {
      ConcPc(p, s, x, Front(i));
    }
  }

  lemma ConcPc(p: Program, s: Site, x: Source, w: Where)
    requires Fits(p, s, x)
    ensures Conc(p, s, x.(where := w)) == Put(Conc(p, s, x), PROGRAM_COUNTER, PcText(p, w))
  {
    hide PcText, FixedLength;
    assert Conc(p, s, x.(where := w)).cells == Put(Conc(p, s, x), PROGRAM_COUNTER, PcText(p, w)).cells;
  }

  lemma GoesToSpot(p: Program, s: Site, x: Source, cond: Condition, target: A.Lexeme)
    requires Fits(p, s, x) && Home(p, s, x.rest) && USER_SPACE_START <= p.first && !target.kind.Label?
    requires Lexed(target, p.syms) && A.Fits(target, A.JumpTargets())
             && (target.kind.Variable? ==> target.value in VarsOf(p.lines))
    ensures var e := Go(p, s, x, cond, target);
            ExecJump(Conc(p, s, x), cond, Target(target, MapOf(p.lines, p.first), p.syms)) ==
                Outcome(Conc(p, s, e.x), e.signal)
  {
    hide PrintInt, MapOf, FixedLength, Fits, Home, Find, Pointer, Conc, SpotAddress, VariableAddress, WhereOf, PcText,
      RefOf, Encoding.Place, Lexed, Stoi, SpotDeclared, Declared, Lower;
    FitsValid(p, s, x);
    RefLowers(p, target);
    var r := RefOf(p, target);
    Finds(p, s, x, r);
    assert !Lower(p, r).NoOperand? by { LowerIsOperand(p, r); }
    ConcLow(p, s, x);
    var f := Find(p, s, x, r);
    if f.signal.Done? && f.spot.Some? && Taken(x.rest, cond) {
      ConcPc(p, s, x, WhereOf(p, s, x.rest.kernel, PrintInt(SpotAddress(p, f.spot.value) - 1)));
    }
  }

  lemma LowerIsOperand(p: Program, r: Ref)
    ensures !Lower(p, r).NoOperand?
  {
  }

  lemma Operates(p: Program, s: Site, x: Source, input: Inputs)
    requires Fits(p, s, x) && Distinct(VarsOf(p.lines))
    ensures var e := Operate(p, s, x, input);
            ExecOperation(Conc(p, s, x), input) == Outcome(Conc(p, s, e.x), e.signal)
  {
    hide Conc, Abs, ExecOperation, CellOf;
    FitsValid(p, s, x);
    ConcOfAbs(p, s, ExecOperation(Conc(p, s, x), input).m);
  }

  /** Variables of the line are declared, and the label of a jump is defined. */
  ghost predicate NamesResolved(p: Program, line: A.Line)
    requires line.Line?
  {
    forall i :: 0 <= i < |line.args| ==>
      && (line.args[i].kind.Variable? ==> line.args[i].value in VarsOf(p.lines))
      && (line.args[i].kind.Label? && !(line.cmd == "write" && i == 0) ==> LabelLine(p.lines, line.args[i].value).Some?)
  }

  /** A source line acts as its compiled meaning does. */
  lemma Acts(p: Program, s: Site, x: Source, line: A.Line, input: Inputs)
    requires Fits(p, s, x) && Home(p, s, x.rest) && USER_SPACE_START <= p.first && Distinct(VarsOf(p.lines))
    requires ProperCode(line) && LineLexed(line, p.syms) && NamesResolved(p, line)
    ensures var e := Act(p, s, x, line, input);
            Execute(Conc(p, s, x), Meaning(line, MapOf(p.lines, p.first), p.syms), input) ==
                Outcome(Conc(p, s, e.x), e.signal)
  {
    hide Conc, Fits, Home, MapOf, RefOf, Lower, Encoding.Place, Target, Value, TextOf, Move, Go, Operate,
      ExecOperation, ExecCopy, ExecJump, Lexed, Declared;
    FitsValid(p, s, x);
    if line.cmd == "cpu_exec" {
      Operates(p, s, x, input);
    } else if line.cmd == "copy" {
      assert A.Fits(line.args[0], A.Pattern("copy")[0]) && A.Fits(line.args[2], A.Pattern("copy")[2]);
      RefLowers(p, line.args[0]);
      RefLowers(p, line.args[2]);
      Moves(p, s, x, RefOf(p, line.args[0]), RefOf(p, line.args[2]));
    } else if line.cmd == "write" {
      assert A.Fits(line.args[2], A.Pattern("write")[2]);
      RefLowers(p, line.args[2]);
      TextIsValue(p, line.args[0]);
      var say := Say(TextOf(p, line.args[0]));
      SayLowers(p, say.text);
      Moves(p, s, x, say, RefOf(p, line.args[2]));
    } else if !A.IsMark(line.cmd) {
      assert A.Fits(line.args[0], A.Pattern(line.cmd)[0]);
      if line.args[0].kind.Label? {
        GoesToLabel(p, s, x, JumpCondition(line.cmd), line.args[0]);
      } else {
        GoesToSpot(p, s, x, JumpCondition(line.cmd), line.args[0]);
      }
    }
  }

  lemma SayLowers(p: Program, t: string)
    ensures Lower(p, Say(t)) == Literal(t) && Declared(p, Say(t))
  {
  }

  // ---- One step ----

  /** The instruction lines before line i. */
  function CodeBefore(lines: seq<A.Line>, i: nat): seq<A.Line>
    requires i <= |lines|
  {
    CodeOf(lines[..i])
  }

  lemma CodePrefix(lines: seq<A.Line>, i: nat)
    requires i < |lines|
    ensures CodeBefore(lines, i + 1) == CodeBefore(lines, i) + if A.IsCode(lines[i]) then [lines[i]] else []
  {
    assert lines[..i + 1][..i] == lines[..i];
  }

  lemma {:induction false} CodeStarts(lines: seq<A.Line>, i: nat)
    requires i <= |lines|
    ensures CodeBefore(lines, i) <= CodeOf(lines)
    decreases |lines| - i
  {
    if i == |lines| {
      assert lines[..i] == lines;
    } else {
      CodePrefix(lines, i);
      CodeStarts(lines, i + 1);
    }
  }

  /** The next line of code is the instruction at the position of the line. */
  lemma {:induction false} NextIsAt(lines: seq<A.Line>, i: nat)
    requires NextCode(lines, i).Some?
    ensures var j := NextCode(lines, i).value;
            && Position(lines, i) == Position(lines, j) && Position(lines, j + 1) == Position(lines, i) + 1
            && Position(lines, i) < |CodeOf(lines)| && CodeOf(lines)[Position(lines, i)] == lines[j]
    decreases |lines| - i
  {
    CodePrefix(lines, i);
    if A.IsCode(lines[i]) {
      CodeStarts(lines, i + 1);
    } else {
      NextIsAt(lines, i + 1);
    }
  }

  /** The step's start: the program counter moves behind the line and the key is polled. */
  lemma BehindIsReady(p: Program, s: Site, x: Source, input: Inputs)
    requires Fits(p, s, x) && Here(p, s, x).Some? && InInt(p.first - 1) && InInt(p.first + Length(p.lines))
    ensures Conc(p, s, Behind(x, Here(p, s, x).value, input)) == Ready(Conc(p, s, x), input)
    ensures Conc(p, s, x.(where := Front(Here(p, s, x).value + 1))) == Advance(Conc(p, s, x))
    ensures Stoi(Conc(p, s, x).cells[PROGRAM_COUNTER]) == Some(p.first + Position(p.lines, x.where.line) - 1)
    ensures Fits(p, s, Behind(x, Here(p, s, x).value, input))
  {
    hide PrintInt, Position, Stoi;
    var i, j := x.where.line, Here(p, s, x).value;
    NextIsAt(p.lines, i);
    var pc := p.first + Position(p.lines, i) - 1;
    StoiPrint(pc);
    ConcPc(p, s, x, Front(j + 1));
    var y := x.(where := Front(j + 1));
    if input.key != 0 {
      assert Conc(p, s, Behind(x, j, input)).cells == Poll(Conc(p, s, y), input).cells;
    } else {
      assert Behind(x, j, input) == y;
    }
  }

  /** Code and literals of the image are in place. */
  ghost predicate InPlace(p: Program, s: Site, m: Machine, image: seq<string>) {
    && 0 <= s.base && s.base + FixedLength(p.lines) <= |m.cells| && FixedLength(p.lines) <= |image|
    && forall q :: s.base <= q < s.base + FixedLength(p.lines) ==> m.cells[q] == image[q - s.base]
  }

  lemma HomeIsLoaded(p: Program, s: Site, x: Source, image: seq<string>)
    requires Accepted(p) && Fits(p, s, x) && Home(p, s, x.rest) && InPlace(p, s, Conc(p, s, x), image)
    ensures Loaded(Conc(p, s, x), TablesOf(p), image)
  {
    hide TablesOf, Accepted, Conc, Length, FixedLength;
    TablesAgree(p);
    LengthIs(p);
    ConcLow(p, s, x);
  }

  lemma LengthIs(p: Program)
    ensures FixedLength(p.lines) <= Length(p.lines)
  {
  }

  /** Every line of an accepted program is lexed and names only what is declared. */
  lemma LineResolved(p: Program, k: nat)
    requires Accepted(p) && k < |CodeOf(p.lines)|
    ensures k < |TablesOf(p).code| && TablesOf(p).code[k] == CodeOf(p.lines)[k]
    ensures var line := CodeOf(p.lines)[k];
            && ProperCode(line) && LineLexed(line, p.syms) && NamesResolved(p, line)
            && MeaningOf(TablesOf(p), k, p.syms) == Meaning(line, MapOf(p.lines, p.first), p.syms)
  {
    hide A.Pass1, A.Layout, SymbolsOk, AllLexed, Meaning, MapOf, A.EmitLexeme, Lexed;
    TablesAgree(p);
    var t, line := TablesOf(p), CodeOf(p.lines)[k];
    AcceptedCode(p, k);
    assert CleanCode(t, k, p.syms);
    AcceptedIffDefined(t, line, p.syms);
    assert NamesDefined(t, line);
    forall i | 0 <= i < |line.args|
      ensures line.args[i].kind.Variable? ==> line.args[i].value in VarsOf(p.lines)
      ensures line.args[i].kind.Label? && !(line.cmd == "write" && i == 0) ==>
                LabelLine(p.lines, line.args[i].value).Some?
    {
      assert NameDefined(t, line.args[i], line.cmd == "write" && i == 0);
      LabelIsMapped(p, line.args[i].value);
      VariableIsMapped(p, line.args[i].value);
    }
  }

  lemma VariableIsMapped(p: Program, name: string)
    ensures name in MapOf(p.lines, p.first).variables <==> name in VarsOf(p.lines)
  {
  }

  lemma InRangeOf(p: Program)
    requires Accepted(p)
    ensures USER_SPACE_START <= p.first && InInt(p.first - 1) && InInt(p.first + Length(p.lines))
            && Distinct(VarsOf(p.lines))
  {
    hide A.Pass1, A.Layout, SymbolsOk, AllLexed;
    TablesAgree(p);
  }

  /** What the line does, on the machine. */
  lemma LineSteps(p: Program, s: Site, x: Source, input: Inputs)
    requires Accepted(p) && Fits(p, s, x) && Home(p, s, x.rest) && x.rest.status.Running? && Here(p, s, x).Some?
    ensures var line := p.lines[Here(p, s, x).value];
            StepWith(Conc(p, s, x), Meaning(line, MapOf(p.lines, p.first), p.syms), input) ==
                Conc(p, s, SourceStep(p, s, x, input))
  {
    hide Accepted, Conc, Fits, Home, MapOf, Act, Execute, Settle, Advance, Poll, CellOf, NamesResolved, LineLexed,
      TablesOf, FixedLength, Length, TimerPhase, ProperCode, Abs, Position;
    var j := Here(p, s, x).value;
    var line := p.lines[j];
    InRangeOf(p);
    assert Valid(x.rest) && Valid(Conc(p, s, x)) by { FitsValid(p, s, x); }
    BehindIsReady(p, s, x, input);
    NextIsAt(p.lines, x.where.line);
    LineResolved(p, Position(p.lines, x.where.line));
    MarkMeaning(p, line);
    if !A.IsMark(line.cmd) {
      var n := Behind(x, j, input);
      assert Home(p, s, n.rest) by { PolledHome(p, s, x.rest, input); }
      Acts(p, s, n, line, input);
      var e := Act(p, s, n, line, input);
      SettlesWell(p, s, e, input);
    }
  }

  lemma MarkMeaning(p: Program, line: A.Line)
    requires ProperCode(line)
    ensures Meaning(line, MapOf(p.lines, p.first), p.syms).DebugMark? <==> A.IsMark(line.cmd)
  {
  }

  lemma PolledHome(p: Program, s: Site, m: Machine, input: Inputs)
    requires Valid(m) && Home(p, s, m)
    ensures Home(p, s, Poll(m, input))
  {
    hide Stoi, PrintInt, Length;
  }

  lemma SettlesWell(p: Program, s: Site, e: Effect, input: Inputs)
    requires Fits(p, s, e.x) && Distinct(VarsOf(p.lines))
    ensures Conc(p, s, Settled(p, s, e, input)) == TimerPhase(Settle(Outcome(Conc(p, s, e.x), e.signal), input))
  {
    hide HandleFault, Tick, Abs, CellOf, Length;
    FitsValid(p, s, e.x);
    LengthFits(p, s, e.x);
    var m := TimerPhase(Settle(Outcome(Conc(p, s, e.x), e.signal), input));
    ConcOfAbs(p, s, m);
  }

  lemma LengthFits(p: Program, s: Site, x: Source)
    requires Fits(p, s, x)
    ensures HW_TIMER < s.base && s.base + Length(p.lines) <= |x.rest.cells|
  {
  }

  /** In front of a line of the program, the line that runs is the next instruction line, if there
      is one: marks, declarations and blank lines in between are passed over. */
  lemma NextLineRuns(p: Program, s: Site, x: Source, j: nat)
    requires Accepted(p) && x.where.Front? && x.rest.kernel == s.kernel && x.where.line <= j < |p.lines|
    requires A.IsCode(p.lines[j]) && forall i :: x.where.line <= i < j ==> !A.IsCode(p.lines[i])
    ensures Here(p, s, x) == Some(j)
  {
    hide Accepted, Position, NamesResolved, LineLexed, ProperCode, Meaning, TablesOf, MapOf;
    assert NextCode(p.lines, x.where.line) == Some(j);
    NextIsAt(p.lines, x.where.line);
    LineResolved(p, Position(p.lines, x.where.line));
  }

  /** A machine whose program counter is one before the k-th instruction is in front of the line of
      that instruction, which runs next. */
  lemma CounterFindsLine(p: Program, s: Site, m: Machine, k: nat)
    requires Accepted(p) && Valid(m) && HW_TIMER < s.base && s.base + Length(p.lines) <= |m.cells|
    requires m.kernel == s.kernel && k < |CodeOf(p.lines)| && m.cells[PROGRAM_COUNTER] == PrintInt(p.first + k - 1)
    ensures var r := Here(p, s, Abs(p, s, m));
            && r.Some? && p.lines[r.value] == CodeOf(p.lines)[k] && Position(p.lines, r.value) == k
            && Abs(p, s, m).where == Front(r.value)
  {
    hide Accepted, Position, NamesResolved, LineLexed, ProperCode, Meaning, TablesOf, MapOf, Length, PrintInt, Stoi,
      FixedLength;
    InRangeOf(p);
    assert |CodeOf(p.lines)| <= Length(p.lines) by { CodeIsPart(p); }
    StoiPrint(p.first + k - 1);
    var x := Abs(p, s, m);
    NextLineRuns(p, s, x, LineAt(p.lines, k));
  }

  lemma CodeIsPart(p: Program)
    ensures |CodeOf(p.lines)| <= Length(p.lines)
  {
  }

  /** One step of the CPU on the compiled image is one step of the source. */
  lemma StepIsSourceStep(p: Program, s: Site, x: Source, image: seq<string>, debug: bool, input: Inputs)
    requires Accepted(p) && image == ImageOf(p, debug) && Fits(p, s, x) && InPlace(p, s, Conc(p, s, x), image)
    requires Here(p, s, x).Some? ==> Home(p, s, x.rest)
    ensures Step(Conc(p, s, x), input) == Conc(p, s, SourceStep(p, s, x, input))
  {
    hide Accepted, Conc, Fits, Home, MapOf, InPlace, TablesOf, Step, StepWith, CellOf, Length, Loaded, ImageOf,
      Meaning, Abs, Act, Settled, Here, Stoi, Position;
    FitsValid(p, s, x);
    LengthFits(p, s, x);
    InRangeOf(p);
    var m := Conc(p, s, x);
    if !m.status.Running? {
      StoppedStays(m, input);
    } else if Here(p, s, x).None? {
      ConcOfAbs(p, s, Step(m, input));
    } else {
      HomeIsLoaded(p, s, x, image);
      LineSteps(p, s, x, input);
      HereIsIndex(p, s, x);
      StepSimulates(p, m, image, debug, input);
    }
  }

  lemma StoppedStays(m: Machine, input: Inputs)
    requires Valid(m) && !m.status.Running?
    ensures Step(m, input) == m
  {
  }

  /** The program counter points at the line. */
  lemma HereIsIndex(p: Program, s: Site, x: Source)
    requires Accepted(p) && Fits(p, s, x) && Here(p, s, x).Some?
    ensures CodeIndex(Conc(p, s, x), TablesOf(p)) == Some(Position(p.lines, x.where.line))
    ensures MeaningOf(TablesOf(p), Position(p.lines, x.where.line), p.syms)
         == Meaning(p.lines[Here(p, s, x).value], MapOf(p.lines, p.first), p.syms)
  {
    hide Accepted, MapOf, TablesOf, Meaning, MeaningOf, Stoi, Position, CellOf, Length, NamesResolved, LineLexed,
      ProperCode;
    InRangeOf(p);
    FitsValid(p, s, x);
    TablesAgree(p);
    BehindIsReady(p, s, x, Inputs(0, None, "", None, None));
    NextIsAt(p.lines, x.where.line);
    LineResolved(p, Position(p.lines, x.where.line));
  }
}
