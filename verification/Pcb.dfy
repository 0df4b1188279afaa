/** Control blocks as texts: what a new one reads back, for every priority a caller may pass. */
module Pcb {
  import opened Text
  import opened Columns
  import opened Ring

  const FIRST_INSTRUCTION := 12

  /** The control block gives the block's first and last cell. */
  ghost predicate HoldsBlock(pcb: string, start: int, size: nat) {
    && IsRecord(pcb)
    && GetColumn(pcb, MEM_START, " ") == PrintInt(start) && GetColumn(pcb, MEM_END, " ") == PrintInt(start + size)
  }

  lemma {:induction false} FieldsHaveNoBlank(s: string)
    ensures AllNoBlank(Fields(s, " "))
  {
    if s != "" {
      FieldsHaveNoBlank(s[..|s| - 1]);
    }
  }

  lemma {:induction false} NonEmptyKeepsNoBlank(fs: seq<string>)
    requires AllNoBlank(fs)
    ensures AllNoBlank(NonEmpty(fs))
  {
    if fs != [] {
      NonEmptyKeepsNoBlank(fs[..|fs| - 1]);
    }
  }

  lemma ColumnHasNoBlank(s: string, c: int)
    ensures NoBlank(GetColumn(s, c, " "))
  {
    FieldsHaveNoBlank(s);
    NonEmptyKeepsNoBlank(Fields(s, " "));
  }

  lemma RecordIsNotFree(pcb: string)
    requires IsRecord(pcb)
    ensures pcb != "0"
  {
    hide Join, Tokens;
    var ws: seq<string> :| RecordOf(pcb, ws);
    assert Join(["0"], " ") == "0" by { JoinOne("0"); }
    TokensOfJoin(ws);
    TokensOfJoin(["0"]);
  }

  lemma JoinOne(w: string)
    ensures Join([w], " ") == w
  {
  }

  lemma WokenHolds(pcb: string, start: int, size: nat)
    requires HoldsBlock(pcb, start, size)
    ensures HoldsBlock(Woken(pcb), start, size) && Woken(pcb) != "0" && (FdsOk(pcb) ==> FdsOk(Woken(pcb)))
  {
    hide IsRecord, GetColumn, Woken, StateOf;
    WokenIsReady(pcb);
    RecordIsNotFree(Woken(pcb));
  }

  lemma PausedHolds(pcb: string, start: int, size: nat)
    requires HoldsBlock(pcb, start, size)
    ensures var r := ReplaceColumn(pcb, STATE, " ", "pause");
            && HoldsBlock(r, start, size) && r != "0" && StateOf(r) == "pause" && (FdsOk(pcb) ==> FdsOk(r))
            && forall c :: c != STATE ==> GetColumn(r, c, " ") == GetColumn(pcb, c, " ")
  {
    hide GetColumn, ReplaceColumn, Join;
    var ws: seq<string> :| RecordOf(pcb, ws);
    SetColumn(ws, STATE, "pause");
    var r := ReplaceColumn(pcb, STATE, " ", "pause");
    assert RecordOf(r, ws[STATE - 1 := "pause"]);
    RecordIsNotFree(r);
  }

  // ---- Columns of concatenated texts ----

  /** The columns after one more character. */
  function AddChar(fs: seq<string>, ch: char): seq<string>
    requires |fs| > 0
  {
    if ch == ' ' then fs + [""] else fs[..|fs| - 1] + [fs[|fs| - 1] + [ch]]
  }

  lemma FieldsSnoc(t: string, ch: char)
    ensures Fields(t + [ch], " ") == AddChar(Fields(t, " "), ch)
  {
    assert (t + [ch])[..|t|] == t;
  }

  lemma AddCharBehind(fa: seq<string>, fc: seq<string>, ch: char)
    requires |fc| > 0
    ensures AddChar(fa + fc, ch) == fa + AddChar(fc, ch)
  {
    assert (fa + fc)[..|fa + fc| - 1] == fa + fc[..|fc| - 1];
  }

  lemma {:induction false} FieldsConcat(a: string, b: string)
    ensures Fields(a + " " + b, " ") == Fields(a, " ") + Fields(b, " ")
  {
    hide Fields, AddChar;
    if b == "" {
      assert a + " " + b == a + [' '];
      BlankAdds(a);
    } else {
      var c, ch := b[..|b| - 1], b[|b| - 1];
      FieldsConcat(a, c);
      assert a + " " + b == (a + " " + c) + [ch] && b == c + [ch];
      FieldsSnoc(a + " " + c, ch);
      FieldsSnoc(c, ch);
      AddCharBehind(Fields(a, " "), Fields(c, " "), ch);
    }
  }

  lemma BlankAdds(a: string)
    ensures Fields(a + [' '], " ") == Fields(a, " ") + Fields("", " ")
  {
    hide Fields;
    FieldsSnoc(a, ' ');
    NoFields();
  }

  lemma NoFields()
    ensures Fields("", " ") == [""]
  {
  }

  lemma {:induction false} NonEmptyConcat(a: seq<string>, b: seq<string>)
    ensures NonEmpty(a + b) == NonEmpty(a) + NonEmpty(b)
  {
    if b == [] {
      assert a + b == a;
    } else {
      assert (a + b)[..|a + b| - 1] == a + b[..|b| - 1];
      NonEmptyConcat(a, b[..|b| - 1]);
    }
  }

  lemma {:induction false} JoinConcat(a: seq<string>, b: seq<string>)
    requires |a| > 0 && |b| > 0
    ensures Join(a + b, " ") == Join(a, " ") + " " + Join(b, " ")
  {
    assert (a + b)[..|a + b| - 1] == a + b[..|b| - 1];
    if |b| > 1 {
      JoinConcat(a, b[..|b| - 1]);
    } else {
      assert a + b[..0] == a;
    }
  }

  lemma {:induction false} BlankSplits(s: string)
    requires !NoBlank(s)
    ensures |Fields(s, " ")| >= 2
  {
    var t := s[..|s| - 1];
    assert s == t + [s[|s| - 1]];
    if !NoBlank(t) {
      BlankSplits(t);
    }
  }

  /** A text is one field exactly when it holds no blank. */
  lemma OneField(s: string)
    ensures |Fields(s, " ")| == 1 <==> NoBlank(s)
  {
    if NoBlank(s) {
      FieldsOfNoBlank(s);
    } else {
      BlankSplits(s);
    }
  }

  /** Replacing a column behind the first one never makes a control block look free. */
  lemma ReplacedIsUsed(pcb: string, c: int, d: string)
    requires pcb != "0" && c >= 2 && NoBlank(d)
    ensures ReplaceColumn(pcb, c, " ", d) != "0"
  {
    hide Join, Fields;
    FieldsHaveNoBlank(pcb);
    var fs := Fields(pcb, " ");
    JoinOfFields(pcb);
    if 1 <= c <= |fs| {
      var gs := fs[c - 1 := d];
      assert AllNoBlank(gs);
      FieldsOfJoin(gs);
      FieldsOfNoBlank("0");
    }
  }

  /** Descriptor k is in the list behind column 15. */
  ghost predicate Lists(pcb: string, k: nat) {
    exists c: int :: c >= FIRST_FD && GetColumn(pcb, c, " ") == PrintInt(k)
  }

  /** The columns behind column 15 are descriptors. */
  ghost predicate FdsOk(pcb: string) {
    forall c: int :: c >= FIRST_FD && GetColumn(pcb, c, " ") != "" ==> IsFd(GetColumn(pcb, c, " "))
  }

  ghost predicate IsFd(text: string) {
    exists k: nat :: InInt(k) && text == PrintInt(k)
  }

  // ---- Looking a number up ----

  /** The first slot whose control block has the given number, or the number of slots. */
  function FirstWithPid(slots: seq<string>, pid: string, k: nat): (r: nat)
    requires k <= |slots|
    ensures k <= r <= |slots| && (r < |slots| ==> GetColumn(slots[r], 2, " ") == pid)
    ensures forall i :: k <= i < r ==> GetColumn(slots[i], 2, " ") != pid
    decreases |slots| - k
  {
    if k == |slots| || GetColumn(slots[k], 2, " ") == pid then k else FirstWithPid(slots, pid, k + 1)
  }

  // ---- A new control block ----

  /** The columns in front of the priority and behind it. */
  function Front(pid: int, name: string): (ws: seq<string>)
    ensures |ws| == 7
  {
    ["PID", PrintInt(pid), "NAME", name, "STATE", "ready", "PRIORITY"]
  }

  function Back(start: int, end: int, pc: string): (ws: seq<string>)
    ensures |ws| == 7
  {
    ["MEM_START", PrintInt(start), "MEM_END", PrintInt(end), "PC", pc, "FD_LIST"]
  }

  /** The control block with the given priority text and program counter. */
  function PcbText(pid: int, name: string, priority: string, start: int, end: int, pc: string): string {
    Join(Front(pid, name) + [priority] + Back(start, end, pc), " ")
  }

  lemma FrontAndBack(pid: int, name: string, start: int, end: int, pc: string)
    requires IsWord(name) && IsWord(pc)
    ensures AllWords(Front(pid, name)) && AllWords(Back(start, end, pc))
  {
    hide PrintInt;
    PrintIsWord(pid);
    PrintIsWord(start);
    PrintIsWord(end);
  }

  lemma JoinMore(ws: seq<string>, w: string)
    requires |ws| > 0
    ensures Join(ws + [w], " ") == Join(ws, " ") + " " + w
  {
    assert (ws + [w])[..|ws|] == ws;
  }

  /** The text of a control block, written out. */
  lemma PcbIsText(pid: int, name: string, priority: string, start: int, end: int, pc: string)
    ensures PcbText(pid, name, priority, start, end, pc) ==
              ("PID" + " " + PrintInt(pid) + " " + "NAME" + " " + name + " " + "STATE" + " " + "ready" + " " +
                  "PRIORITY")
              + " " + priority + " "
              + ("MEM_START" + " " + PrintInt(start) + " " + "MEM_END" + " " + PrintInt(end) + " " + "PC" + " " + pc
                 + " " + "FD_LIST")
  {
    hide Join, PrintInt;
    var f, b := Front(pid, name), Back(start, end, pc);
    SevenJoined("PID", PrintInt(pid), "NAME", name, "STATE", "ready", "PRIORITY");
    SevenJoined("MEM_START", PrintInt(start), "MEM_END", PrintInt(end), "PC", pc, "FD_LIST");
    JoinMore(f, priority);
    JoinConcat(f + [priority], b);
  }

  lemma SevenJoined(a: string, b: string, c: string, d: string, e: string, f: string, g: string)
    ensures Join([a, b, c, d, e, f, g], " ") ==
              a + " " + b + " " + c + " " + d + " " + e + " " + f + " " + g
  {
    hide Join;
    JoinOne(a);
    JoinMore([a], b);
    JoinMore([a, b], c);
    JoinMore([a, b, c], d);
    JoinMore([a, b, c, d], e);
    JoinMore([a, b, c, d, e], f);
    JoinMore([a, b, c, d, e, f], g);
    assert [a] + [b] == [a, b] && [a, b] + [c] == [a, b, c] && [a, b, c] + [d] == [a, b, c, d];
    assert [a, b, c, d] + [e] == [a, b, c, d, e] && [a, b, c, d, e] + [f] == [a, b, c, d, e, f];
    assert [a, b, c, d, e, f] + [g] == [a, b, c, d, e, f, g];
  }

  /** Whatever the priority is, its fields and its columns stand between those of the rest. */
  lemma PcbFields(pid: int, name: string, priority: string, start: int, end: int, pc: string)
    requires IsWord(name) && IsWord(pc)
    ensures var pcb, f, b := PcbText(pid, name, priority, start, end, pc), Front(pid, name), Back(start, end, pc);
            && Fields(pcb, " ") == f + Fields(priority, " ") + b && Tokens(pcb, " ") == f + Tokens(priority, " ") + b
  {
    hide Front, Back, Join, Fields, NonEmpty;
    var f, b := Front(pid, name), Back(start, end, pc);
    FrontAndBack(pid, name, start, end, pc);
    JoinConcat(f + [priority], b);
    JoinConcat(f, [priority]);
    assert Join([priority], " ") == priority by { JoinOne(priority); }
    assert f + [priority] + b == (f + [priority]) + b;
    FieldsConcat(Join(f, " ") + " " + priority, Join(b, " "));
    FieldsConcat(Join(f, " "), priority);
    FieldsOfJoin(f);
    FieldsOfJoin(b);
    NonEmptyConcat(f + Fields(priority, " "), b);
    NonEmptyConcat(f, Fields(priority, " "));
    NonEmptyOfWords(f);
    NonEmptyOfWords(b);
  }

  /** The columns that the dispatcher reads give the block and the program counter. */
  ghost predicate ReadsBack(pcb: string, start: int, end: int, pc: string) {
    && GetColumn(pcb, MEM_START, " ") == PrintInt(start) && GetColumn(pcb, MEM_END, " ") == PrintInt(end)
    && GetColumn(pcb, PC, " ") == pc
  }

  /** One column, or at least seven of which three happen to be the values looked for. */
  ghost predicate Transparent(priority: string, start: int, end: int, pc: string) {
    var ts := Tokens(priority, " ");
    |ts| == 1 || (|ts| >= 7 && ts[2] == PrintInt(start) && ts[4] == PrintInt(end) && ts[6] == pc)
  }

  lemma NumbersAreNoLabels(n: int)
    ensures PrintInt(n) !in {"MEM_START", "MEM_END", "PC", "FD_LIST"}
  {
    PrintChars(n);
    assert !IsDigit('M') && !IsDigit('P') && !IsDigit('F');
    assert "MEM_START"[0] == 'M' && "MEM_END"[0] == 'M' && "PC"[0] == 'P' && "FD_LIST"[0] == 'F';
  }

  /** Reading back: the dispatcher finds block and program counter of a new control block exactly
      when the priority has one column, or fakes them; for fewer than seven columns, exactly when
      it has one. */
  lemma ReadsBackIff(pid: int, name: string, priority: string, start: int, size: nat, pc: int)
    requires IsWord(name) && size > 0 && pc != start && InInt(pc) && InInt(start) && InInt(start + size)
    ensures var pcb, end := PcbText(pid, name, priority, start, start + size, PrintInt(pc)), start + size;
            && (ReadsBack(pcb, start, end, PrintInt(pc)) <==> Transparent(priority, start, end, PrintInt(pc)))
            && (|Tokens(priority, " ")| < 7 ==>
                  (ReadsBack(pcb, start, end, PrintInt(pc)) <==> |Tokens(priority, " ")| == 1))
  {
    hide PrintInt, Tokens, PcbText, Front;
    PrintIsWord(pc);
    PcbFields(pid, name, priority, start, start + size, PrintInt(pc));
    NumbersAreNoLabels(start);
    NumbersAreNoLabels(start + size);
    NumbersAreNoLabels(pc);
    DifferentTexts(start, start + size);
    DifferentTexts(start, pc);
  }

  lemma DifferentTexts(a: int, b: int)
    requires InInt(a) && InInt(b) && a != b
    ensures PrintInt(a) != PrintInt(b)
  {
    hide PrintInt;
    if PrintInt(a) == PrintInt(b) {
      PrintInjective(a, b);
    }
  }

  /** The state column is in front of the priority: reading and replacing it work for every
      priority, so a process can always be scheduled, paused and woken. */
  lemma StateIsSafe(pid: int, name: string, priority: string, start: int, end: int, pc: string, d: string)
    requires IsWord(name) && IsWord(pc) && IsWord(d)
    ensures StateOf(PcbText(pid, name, priority, start, end, pc)) == "ready"
    ensures ReplaceColumn(PcbText(pid, name, priority, start, end, pc), STATE, " ", d) ==
              Join(Front(pid, name)[STATE - 1 := d] + [priority] + Back(start, end, pc), " ")
  {
    hide PrintInt, Tokens, PcbText, Back, Fields, Join;
    PcbFields(pid, name, priority, start, end, pc);
    var f, b := Front(pid, name), Back(start, end, pc);
    var g := f[STATE - 1 := d];
    JoinPriority(f[STATE - 1 := d], priority, b);
    assert (f + Fields(priority, " ") + b)[STATE - 1 := d] == g + Fields(priority, " ") + b;
  }

  /** Joining the fields of a text in the middle is joining the text. */
  lemma JoinPriority(f: seq<string>, priority: string, b: seq<string>)
    requires |f| > 0 && |b| > 0
    ensures Join(f + Fields(priority, " ") + b, " ") == Join(f + [priority] + b, " ")
  {
    hide Join, Fields;
    var p := Fields(priority, " ");
    JoinConcat(f + p, b);
    JoinConcat(f, p);
    JoinOfFields(priority);
    JoinConcat(f + [priority], b);
    JoinConcat(f, [priority]);
    JoinOne(priority);
  }

  /** Replacing the program counter, as the timer handler does, changes the program counter. */
  ghost predicate PcIsSettable(pid: int, name: string, priority: string, start: int, end: int, pc: string) {
    forall d: string :: ReplaceColumn(PcbText(pid, name, priority, start, end, pc), PC, " ", d) ==
                          PcbText(pid, name, priority, start, end, d)
  }

  /** It does exactly when the priority holds no blank: replacing counts empty columns too. */
  lemma PcIsSettableIff(pid: int, name: string, priority: string, start: int, end: int, pc: string)
    requires IsWord(name) && IsWord(pc) && pc != "x"
    ensures PcIsSettable(pid, name, priority, start, end, pc) <==> NoBlank(priority)
  {
    hide PrintInt, Tokens, Fields, Join, PcbText;
    OneField(priority);
    PcbFields(pid, name, priority, start, end, pc);
    if NoBlank(priority) {
      forall d: string
        ensures ReplaceColumn(PcbText(pid, name, priority, start, end, pc), PC, " ", d) ==
                  PcbText(pid, name, priority, start, end, d)
      {
        PcReplaced(pid, name, priority, start, end, pc, d);
      }
    } else {
      PcMissed(pid, name, priority, start, end, pc);
    }
  }

  lemma PcReplaced(pid: int, name: string, priority: string, start: int, end: int, pc: string, d: string)
    requires IsWord(name) && IsWord(pc) && NoBlank(priority)
    ensures ReplaceColumn(PcbText(pid, name, priority, start, end, pc), PC, " ", d) ==
              PcbText(pid, name, priority, start, end, d)
  {
    hide PrintInt, Tokens, Fields, Join;
    PcbFields(pid, name, priority, start, end, pc);
    FieldsOfNoBlank(priority);
    var f := Front(pid, name);
    assert (f + [priority] + Back(start, end, pc))[PC - 1 := d] == f + [priority] + Back(start, end, d);
  }

  lemma PcMissed(pid: int, name: string, priority: string, start: int, end: int, pc: string)
    requires IsWord(name) && IsWord(pc) && !NoBlank(priority) && pc != "x"
    ensures ReplaceColumn(PcbText(pid, name, priority, start, end, pc), PC, " ", "x") !=
              PcbText(pid, name, priority, start, end, "x")
  {
    hide PrintInt, Tokens, Fields, Join, PcbText;
    BlankSplits(priority);
    FieldsHaveNoBlank(priority);
    FrontAndBack(pid, name, start, end, pc);
    PcbFields(pid, name, priority, start, end, pc);
    PcbFields(pid, name, priority, start, end, "x");
    var f, p, b := Front(pid, name), Fields(priority, " "), Back(start, end, pc);
    var gs := (f + p + b)[PC - 1 := "x"];
    assert AllNoBlank(gs);
    FieldsOfJoin(gs);
    assert gs[12 + |p|] == pc;
    assert (f + p + Back(start, end, "x"))[12 + |p|] == "x";
  }

  lemma WordIff(priority: string)
    ensures IsWord(priority) <==> NoBlank(priority) && |Tokens(priority, " ")| == 1
  {
    if NoBlank(priority) {
      FieldsOfNoBlank(priority);
      assert [priority][..0] == [] && NonEmpty([]) == [];
      assert NonEmpty([priority]) == if priority == "" then [] else [priority];
    }
  }

  lemma NoLetter(n: int)
    ensures PrintInt(n) != "x"
  {
    PrintChars(n);
    assert !IsDigit("x"[0]);
  }

  /** A new control block can be read back and its program counter set exactly when its priority
      is a word, for every priority of fewer than seven columns. The loader takes any text. */
  lemma SoundIffWord(pid: int, name: string, priority: string, start: int, size: nat, pc: int)
    requires IsWord(name) && size > 0 && pc != start && InInt(pc) && InInt(start) && InInt(start + size)
    requires |Tokens(priority, " ")| < 7
    ensures var pcb, end := PcbText(pid, name, priority, start, start + size, PrintInt(pc)), start + size;
            IsWord(priority) <==>
              && ReadsBack(pcb, start, end, PrintInt(pc))
              && PcIsSettable(pid, name, priority, start, end, PrintInt(pc))
  {
    hide PrintInt, Tokens, PcbText, ReadsBack, PcIsSettable, Transparent;
    PrintIsWord(pc);
    NoLetter(pc);
    ReadsBackIff(pid, name, priority, start, size, pc);
    PcIsSettableIff(pid, name, priority, start, start + size, PrintInt(pc));
    WordIff(priority);
  }

  /** The release routine gets through: it reads the bounds as numbers, and every column of the
      descriptor list. Any other text there stops the machine in the conversion. */
  ghost predicate Releases(pcb: string) {
    && Stoi(GetColumn(pcb, MEM_START, " ")).Some? && Stoi(GetColumn(pcb, MEM_END, " ")).Some?
    && forall c: int :: c >= FIRST_FD && GetColumn(pcb, c, " ") != "" ==> Stoi(GetColumn(pcb, c, " ")).Some?
  }

  lemma LabelsAreNoNumbers()
    ensures Stoi("MEM_START").None? && Stoi("MEM_END").None? && Stoi("FD_LIST").None?
  {
    assert !IsDigit('M') && !IsDigit('F') && !IsSpace('M') && !IsSpace('F');
    assert "MEM_START"[0] == 'M' && "MEM_END"[0] == 'M' && "FD_LIST"[0] == 'F';
    assert SkipSpaces("MEM_START") == "MEM_START" && SkipSpaces("MEM_END") == "MEM_END"
      && SkipSpaces("FD_LIST") == "FD_LIST";
  }

  /** A new control block can be released exactly when the priority has one column. Without one,
      or with two, the start is a label; with three or more the descriptor list holds one. */
  lemma ReleasesIff(pid: int, name: string, priority: string, start: int, end: int, pc: string)
    requires IsWord(name) && IsWord(pc) && InInt(start) && InInt(end)
    ensures Releases(PcbText(pid, name, priority, start, end, pc)) <==> |Tokens(priority, " ")| == 1
  {
    hide PrintInt, Tokens, PcbText, Front, Stoi;
    var pcb, n := PcbText(pid, name, priority, start, end, pc), |Tokens(priority, " ")|;
    PcbFields(pid, name, priority, start, end, pc);
    LabelsAreNoNumbers();
    StoiPrint(start);
    StoiPrint(end);
    if n >= 3 {
      assert GetColumn(pcb, n + 14, " ") == "FD_LIST";
    }
  }

  /** It never looks like a free slot. */
  lemma PcbIsUsed(pid: int, name: string, priority: string, start: int, end: int, pc: string)
    requires IsWord(name) && IsWord(pc)
    ensures PcbText(pid, name, priority, start, end, pc) != "0"
  {
    hide PrintInt, Fields, PcbText, Tokens;
    PcbFields(pid, name, priority, start, end, pc);
    FieldsOfNoBlank("0");
  }

  /** A priority that is a word gives a proper record. */
  lemma NewRecord(pid: int, name: string, priority: string, start: int, size: nat, pc: int)
    requires IsWord(name) && IsWord(priority)
    ensures var pcb := PcbText(pid, name, priority, start, start + size, PrintInt(pc));
            HoldsBlock(pcb, start, size) && FdsOk(pcb) && StateOf(pcb) == "ready"
              && GetColumn(pcb, PC, " ") == PrintInt(pc) && GetColumn(pcb, 8, " ") == priority
  {
    hide PrintInt, Join, GetColumn;
    PrintIsWord(pc);
    FrontAndBack(pid, name, start, start + size, PrintInt(pc));
    var ws := Front(pid, name) + [priority] + Back(start, start + size, PrintInt(pc));
    assert AllWords(ws);
    assert RecordOf(Join(ws, " "), ws);
    GetOfJoin(ws, STATE);
    GetOfJoin(ws, MEM_START);
    GetOfJoin(ws, MEM_END);
    GetOfJoin(ws, PC);
    GetOfJoin(ws, 8);
    forall c: int | c >= FIRST_FD
      ensures GetColumn(Join(ws, " "), c, " ") == ""
    {
      GetOfJoin(ws, c);
    }
  }
}
