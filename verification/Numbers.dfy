/** Process numbers: the control block of a load carries its number and name whatever happens to the
    process, and the number finds it. */
module Numbers {
  import opened Wrappers
  import opened Text
  import opened Columns
  import opened Ring
  import opened Pcb
  import opened Turns

  /** The first six fields of a control block: number, name and state. */
  function Head(p: int, name: string, state: string): (ws: seq<string>)
    ensures |ws| == 6
  {
    ["PID", PrintInt(p), "NAME", name, "STATE", state]
  }

  ghost predicate CarriesWith(pcb: string, p: int, name: string, state: string, rest: seq<string>) {
    Fields(pcb, " ") == Head(p, name, state) + rest && IsWord(name) && IsWord(state)
  }

  ghost predicate Carries(pcb: string, p: int, name: string) {
    exists state, rest :: CarriesWith(pcb, p, name, state, rest)
  }

  lemma HeadIsWords(p: int, name: string, state: string)
    requires IsWord(name) && IsWord(state)
    ensures AllWords(Head(p, name, state))
  {
    PrintIsWord(p);
  }

  /** Columns 2 and 4 are the number and the name, for every priority. */
  lemma ReadsNumber(pcb: string, p: int, name: string)
    requires Carries(pcb, p, name)
    ensures GetColumn(pcb, 2, " ") == PrintInt(p) && GetColumn(pcb, 4, " ") == name && pcb != "0"
  {
    hide PrintInt, Fields, NonEmpty;
    var state, rest :| CarriesWith(pcb, p, name, state, rest);
    HeadIsWords(p, name, state);
    NonEmptyConcat(Head(p, name, state), rest);
    NonEmptyOfWords(Head(p, name, state));
    FieldsOfNoBlank("0");
  }

  /** A new control block carries its number. */
  lemma NewCarries(pid: int, name: string, priority: string, start: int, end: int, pc: string)
    requires IsWord(name) && IsWord(pc)
    ensures Carries(PcbText(pid, name, priority, start, end, pc), pid, name)
  {
    hide PrintInt, Fields, PcbText, Back;
    PcbFields(pid, name, priority, start, end, pc);
    var rest := ["PRIORITY"] + Fields(priority, " ") + Back(start, end, pc);
    assert Front(pid, name) == Head(pid, name, "ready") + ["PRIORITY"];
    assert CarriesWith(PcbText(pid, name, priority, start, end, pc), pid, name, "ready", rest);
  }

  /** Replacing the state, or a column behind it, leaves the number and the name. */
  lemma ReplacedCarries(pcb: string, p: int, name: string, c: int, d: string)
    requires Carries(pcb, p, name) && c >= STATE && IsWord(d)
    ensures Carries(ReplaceColumn(pcb, c, " ", d), p, name)
  {
    hide PrintInt, Fields, Join;
    var state, rest :| CarriesWith(pcb, p, name, state, rest);
    var fs := Fields(pcb, " ");
    FieldsHaveNoBlank(pcb);
    if c <= |fs| {
      var gs := fs[c - 1 := d];
      FieldsOfJoin(gs);
      assert gs == if c == STATE then Head(p, name, d) + rest else Head(p, name, state) + rest[c - STATE - 1 := d];
      assert CarriesWith(ReplaceColumn(pcb, c, " ", d), p, name, if c == STATE then d else state,
                         if c == STATE then rest else rest[c - STATE - 1 := d]);
    } else {
      JoinOfFields(pcb);
    }
  }

  // ---- The process table ----

  /** A used slot carries a number handed out so far. */
  ghost predicate HasNumber(pcb: string, last: int) {
    exists p, name :: 1 <= p <= last && Carries(pcb, p, name)
  }

  /** Used slots carry different numbers. */
  ghost predicate Numbered(slots: seq<string>, last: int) {
    && (forall i :: 0 <= i < |slots| && slots[i] != "0" ==> HasNumber(slots[i], last))
    && forall i, j :: 0 <= i < j < |slots| && slots[i] != "0" && slots[j] != "0" ==>
                        GetColumn(slots[i], 2, " ") != GetColumn(slots[j], 2, " ")
  }

  /** A slot keeps its process, or is freed. */
  ghost predicate SameNumber(before: string, after: string) {
    after == "0" || (before != "0" && forall p, name :: Carries(before, p, name) ==> Carries(after, p, name))
  }

  lemma KeepsNumbers(before: seq<string>, after: seq<string>, last: int)
    requires Numbered(before, last) && |after| == |before|
    requires forall i :: 0 <= i < |before| ==> SameNumber(before[i], after[i])
    ensures Numbered(after, last)
  {
    hide GetColumn, Carries, PrintInt;
    forall i | 0 <= i < |after| && after[i] != "0"
      ensures HasNumber(after[i], last) && before[i] != "0"
      ensures GetColumn(after[i], 2, " ") == GetColumn(before[i], 2, " ")
    {
      assert SameNumber(before[i], after[i]);
      assert HasNumber(before[i], last);
      var p, name :| 1 <= p <= last && Carries(before[i], p, name);
      ReadsNumber(before[i], p, name);
      ReadsNumber(after[i], p, name);
    }
  }

  lemma ReplacedSame(pcb: string, c: int, d: string)
    requires c >= STATE && IsWord(d) && pcb != "0"
    ensures SameNumber(pcb, ReplaceColumn(pcb, c, " ", d))
  {
    hide Carries, ReplaceColumn;
    forall p, name | Carries(pcb, p, name)
      ensures Carries(ReplaceColumn(pcb, c, " ", d), p, name)
    {
      ReplacedCarries(pcb, p, name, c, d);
    }
  }

  lemma WokenSame(pcb: string)
    ensures SameNumber(pcb, Woken(pcb))
  {
    hide Carries, ReplaceColumn, StateOf;
    FreeHasNoState();
    if pcb != "0" {
      ReplacedSame(pcb, STATE, "ready");
    }
  }

  lemma DecisionKeepsNumbers(slots: seq<string>, current: Option<nat>, last: int)
    requires |slots| > 0 && (current.Some? ==> current.value < |slots|) && Numbered(slots, last)
    ensures Numbered(SelectNext(slots, current).0, last)
  {
    hide Numbered, Woken, StateOf, FirstReady;
    forall i | 0 <= i < |slots| ensures SameNumber(slots[i], Woken(slots[i])) {
      WokenSame(slots[i]);
    }
    KeepsNumbers(slots, WokenAll(slots), last);
  }

  lemma SetKeepsNumbers(slots: seq<string>, i: nat, pcb: string, last: int)
    requires Numbered(slots, last) && i < |slots| && SameNumber(slots[i], pcb)
    ensures Numbered(slots[i := pcb], last)
  {
    hide Numbered, Carries;
    assert forall s: string :: SameNumber(s, s);
    KeepsNumbers(slots, slots[i := pcb], last);
  }

  /** Decisions, wakings, pauses, exits and kills keep the numbers apart. */
  lemma TurnKeepsNumbers(t: Table, turn: Turn, last: int)
    requires Proper(t) && Numbered(t.slots, last) && !turn.Load?
    requires turn.Pause? && t.current.Some? ==> t.slots[t.current.value] != "0"
    ensures Numbered(After(t, turn).slots, last)
  {
    hide Numbered, SelectNext, ReplaceColumn, Carries;
    match turn
    case Timer => DecisionKeepsNumbers(t.slots, t.current, last);
    case Exit =>
      if t.current.Some? {
        SetKeepsNumbers(t.slots, t.current.value, "0", last);
        DecisionKeepsNumbers(t.slots[t.current.value := "0"], None, last);
      }
    case Pause =>
      if t.current.Some? {
        ReplacedSame(t.slots[t.current.value], STATE, "pause");
        SetKeepsNumbers(t.slots, t.current.value, ReplaceColumn(t.slots[t.current.value], STATE, " ", "pause"), last);
      }
    case Kill(s) =>
      if s < |t.slots| {
        SetKeepsNumbers(t.slots, s, "0", last);
      }
    case Load(_) =>
  }

  lemma FreeHasNoNumber()
    ensures GetColumn("0", 2, " ") == ""
  {
    assert Join(["0"], " ") == "0";
    GetOfJoin(["0"], 2);
  }

  /** A number in use finds the slot of its process. */
  lemma NumberFinds(slots: seq<string>, last: int, slot: nat, p: int, name: string)
    requires Numbered(slots, last) && slot < |slots| && Carries(slots[slot], p, name)
    ensures FirstWithPid(slots, PrintInt(p), 0) == slot
  {
    hide GetColumn, Carries, PrintInt;
    ReadsNumber(slots[slot], p, name);
    FreeHasNoNumber();
    var r := FirstWithPid(slots, PrintInt(p), 0);
    assert slots[r] != "0";
  }

  /** A load hands out the next number, which no process carries yet, and which finds the new
      process. */
  lemma LoadKeepsNumbers(slots: seq<string>, last: int, slot: nat, pcb: string, name: string)
    requires Numbered(slots, last) && slot < |slots| && slots[slot] == "0" && 0 <= last && InInt(last + 1)
    requires Carries(pcb, last + 1, name)
    ensures Numbered(slots[slot := pcb], last + 1)
    ensures FirstWithPid(slots[slot := pcb], PrintInt(last + 1), 0) == slot
  {
    hide GetColumn, Carries, PrintInt;
    ReadsNumber(pcb, last + 1, name);
    var after := slots[slot := pcb];
    forall i | 0 <= i < |slots| && slots[i] != "0"
      ensures HasNumber(slots[i], last + 1) && GetColumn(slots[i], 2, " ") != PrintInt(last + 1)
    {
      assert HasNumber(slots[i], last);
      var p, n :| 1 <= p <= last && Carries(slots[i], p, n);
      ReadsNumber(slots[i], p, n);
      DifferentTexts(p, last + 1);
    }
    assert HasNumber(pcb, last + 1);
    NumberFinds(after, last + 1, slot, last + 1, name);
  }
}
