/** Runs of the process table: timer decisions, exits, loads, pauses and kills. How long a ready
    process waits depends on the number of exits, and on nothing else. */
module Turns {
  import opened Wrappers
  import opened Columns
  import opened Ring

  /** The control block slots and the current process. */
  datatype Table = Table(slots: seq<string>, current: Option<nat>)

  /** A timer interrupt or an exit of the current process, which both end in a decision; a
      successful load of a control block; a pause of the current process; the end of another. */
  datatype Turn = Timer | Exit | Load(pcb: string) | Pause | Kill(slot: nat)

  ghost predicate Proper(t: Table) {
    |t.slots| > 0 && (t.current.Some? ==> t.current.value < |t.slots|)
  }

  predicate Decides(turn: Turn) {
    turn.Timer? || turn.Exit?
  }

  function Decided(slots: seq<string>, current: Option<nat>): (t: Table)
    requires |slots| > 0 && (current.Some? ==> current.value < |slots|)
    ensures Proper(t) && |t.slots| == |slots|
  {
    var r := SelectNext(slots, current);
    Table(r.0, r.1)
  }

  /** The table after a turn. An exit frees the slot and clears the current process before the
      decision, which therefore starts at slot 0. */
  function After(t: Table, turn: Turn): (r: Table)
    requires Proper(t)
    ensures Proper(r) && |r.slots| == |t.slots|
  {
    match turn
    case Timer => Decided(t.slots, t.current)
    case Exit => if t.current.None? then t else Decided(t.slots[t.current.value := "0"], None)
    case Load(pcb) =>
      var s := FirstFree(t.slots, 0);
      if s < |t.slots| then t.(slots := t.slots[s := pcb]) else t
    case Pause =>
      if t.current.None? then t
      else t.(slots := t.slots[t.current.value := ReplaceColumn(t.slots[t.current.value], STATE, " ", "pause")])
    case Kill(s) => if s < |t.slots| && t.current != Some(s) then t.(slots := t.slots[s := "0"]) else t
  }

  function AfterAll(t: Table, turns: seq<Turn>): (r: Table)
    requires Proper(t)
    ensures Proper(r) && |r.slots| == |t.slots|
  {
    if turns == [] then t else After(AfterAll(t, turns[..|turns| - 1]), turns[|turns| - 1])
  }

  /** The number of decisions in the turns. */
  function Decisions(turns: seq<Turn>): nat {
    if turns == [] then 0 else Decisions(turns[..|turns| - 1]) + if Decides(turns[|turns| - 1]) then 1 else 0
  }

  function Exits(turns: seq<Turn>): nat {
    if turns == [] then 0 else Exits(turns[..|turns| - 1]) + if turns[|turns| - 1].Exit? then 1 else 0
  }

  /** After the first k turns slot j is the current one. */
  ghost predicate IsChosen(t: Table, turns: seq<Turn>, j: nat, k: nat)
    requires Proper(t)
  {
    k <= |turns| && AfterAll(t, turns[..k]).current == Some(j)
  }

  function StartOf(t: Table): (from: nat)
    requires Proper(t)
    ensures from <= |t.slots|
  {
    if t.current.Some? then t.current.value + 1 else 0
  }

  /** Slot j is ready and not running. */
  ghost predicate Waits(t: Table, j: nat)
    requires Proper(t)
  {
    j < |t.slots| && StateOf(t.slots[j]) == "ready" && t.current != Some(j)
  }

  lemma DecisionComesCloser(slots: seq<string>, current: Option<nat>, j: nat)
    requires |slots| > 0 && (current.Some? ==> current.value < |slots|) && j < |slots| && StateOf(slots[j]) == "ready"
    ensures var from, r := if current.Some? then current.value + 1 else 0, Decided(slots, current);
            && r.slots == slots && r.current.Some?
            && (r.current != Some(j) ==> Distance(r.current.value + 1, j, |slots|) + 1 <= Distance(from, j, |slots|))
  {
    hide StateOf, SelectNext;
    ReadyIsFound(slots, current, j);
  }

  /** One turn of a waiting slot: it keeps waiting or is chosen; a decision brings the ring closer,
      and an exit starts over at slot 0. */
  lemma TurnOfWaiting(t: Table, turn: Turn, j: nat)
    requires Proper(t) && Waits(t, j) && turn != Kill(j)
    ensures var r := After(t, turn);
            && j < |r.slots| && StateOf(r.slots[j]) == "ready"
            && (r.current != Some(j) ==>
                  && Waits(r, j)
                  && (turn.Timer? ==> Distance(StartOf(r), j, |r.slots|) + 1 <= Distance(StartOf(t), j, |t.slots|))
                  && (turn.Exit? && t.current.Some? ==> Distance(StartOf(r), j, |r.slots|) + 1 < |r.slots|)
                  && (!Decides(turn) || (turn.Exit? && t.current.None?) ==> StartOf(r) == StartOf(t)))
  {
    hide StateOf, SelectNext, ReplaceColumn, Decided;
    FreeHasNoState();
    if turn.Timer? {
      DecisionComesCloser(t.slots, t.current, j);
    } else if turn.Exit? && t.current.Some? {
      DecisionComesCloser(t.slots[t.current.value := "0"], None, j);
    }
  }

  lemma PrefixOf(t: Table, turns: seq<Turn>)
    requires Proper(t) && turns != []
    ensures AfterAll(t, turns) == After(AfterAll(t, turns[..|turns| - 1]), turns[|turns| - 1])
    ensures forall k: nat, j: nat :: IsChosen(t, turns[..|turns| - 1], j, k) ==> IsChosen(t, turns, j, k)
    ensures forall j: nat :: AfterAll(t, turns).current == Some(j) ==> IsChosen(t, turns, j, |turns|)
  {
    hide After;
    var n := |turns| - 1;
    assert turns[..|turns|] == turns;
    forall k: nat, j: nat | IsChosen(t, turns[..n], j, k)
      ensures IsChosen(t, turns, j, k)
    {
      assert turns[..n][..k] == turns[..k];
    }
  }

  ghost predicate NeverChosen(t: Table, turns: seq<Turn>, j: nat)
    requires Proper(t)
  {
    forall k: nat :: !IsChosen(t, turns, j, k)
  }

  /** Nobody kills slot j, and exits are made by a running process. */
  ghost predicate Playable(t: Table, turns: seq<Turn>, j: nat)
    requires Proper(t)
  {
    forall k :: 0 <= k < |turns| ==> turns[k] != Kill(j) && (turns[k].Exit? ==> AfterAll(t, turns[..k]).current.Some?)
  }

  lemma Shorter(t: Table, turns: seq<Turn>, j: nat)
    requires Proper(t) && turns != [] && Playable(t, turns, j) && NeverChosen(t, turns, j)
    ensures var before, last := turns[..|turns| - 1], turns[|turns| - 1];
            && Playable(t, before, j) && NeverChosen(t, before, j) && last != Kill(j)
            && (last.Exit? ==> AfterAll(t, before).current.Some?)
            && AfterAll(t, turns) == After(AfterAll(t, before), last) && AfterAll(t, turns).current != Some(j)
  {
    hide AfterAll, IsChosen, After;
    var before := turns[..|turns| - 1];
    PrefixOf(t, turns);
    assert forall k :: 0 <= k < |before| ==> before[k] == turns[k] && before[..k] == turns[..k];
    forall k: nat
      ensures !IsChosen(t, before, j, k)
    {
      assert !IsChosen(t, turns, j, k);
    }
  }

  /** While slot j waits, the decisions made are bounded by the exits made. */
  lemma {:induction false} WaitsInBound(t: Table, turns: seq<Turn>, j: nat)
    requires Proper(t) && Waits(t, j) && Playable(t, turns, j) && NeverChosen(t, turns, j)
    ensures j < |t.slots| && Waits(AfterAll(t, turns), j)
    ensures Decisions(turns) +
              Distance(StartOf(AfterAll(t, turns)), j, |t.slots|) <= (Exits(turns) + 1) * (|t.slots| - 1)
  {
    hide StateOf, After, IsChosen, Distance, Playable, NeverChosen;
    var n := |t.slots|;
    if turns == [] {
      DistanceBound(StartOf(t), j, n);
    } else {
      var before, last := turns[..|turns| - 1], turns[|turns| - 1];
      Shorter(t, turns, j);
      WaitsInBound(t, before, j);
      TurnOfWaiting(AfterAll(t, before), last, j);
      MoreExits(Exits(before), n);
    }
  }

  lemma DistanceBound(from: nat, j: nat, n: nat)
    requires from <= n && j < n
    ensures Distance(from, j, n) <= n - 1
  {
  }

  lemma MoreExits(e: nat, n: nat)
    requires n > 0
    ensures (e + 2) * (n - 1) == (e + 1) * (n - 1) + (n - 1)
  {
  }

  /** Waiting is bounded by exits: a ready slot that is not killed is chosen in every run with more
      than (e + 1) * (n - 1) decisions, e of them exits; without exits, within n decisions. Nothing
      is assumed about the other processes. */
  lemma WaitingBoundedByExits(t: Table, turns: seq<Turn>, j: nat)
    requires Proper(t) && Waits(t, j) && Playable(t, turns, j)
    requires Decisions(turns) > (Exits(turns) + 1) * (|t.slots| - 1)
    ensures exists k: nat :: IsChosen(t, turns, j, k)
  {
    hide StateOf, Waits, IsChosen, AfterAll, Decisions, Exits, Playable;
    if NeverChosen(t, turns, j) {
      WaitsInBound(t, turns, j);
    }
  }

  // ---- With exits there is no bound in the number of slots ----

  /** The process in slot 0 loads one into slot 1 and is preempted; the new one runs and exits. */
  function Round(pcb: string): seq<Turn> {
    [Load(pcb), Timer, Exit]
  }

  function Rounds(pcb: string, count: nat): (turns: seq<Turn>)
    ensures |turns| == 3 * count
  {
    if count == 0 then [] else Rounds(pcb, count - 1) + Round(pcb)
  }

  lemma RoundRepeats(t: Table, pcb: string)
    requires |t.slots| >= 2 && t.current == Some(0) && StateOf(t.slots[0]) == "ready" && t.slots[1] == "0"
             && StateOf(pcb) == "ready"
    ensures var a := After(t, Load(pcb));
            var b := After(a, Timer);
            && a == t.(slots := t.slots[1 := pcb]) && b == a.(current := Some(1)) && After(b, Exit) == t
  {
    hide StateOf;
    FreeHasNoState();
    assert FirstFree(t.slots, 0) == 1;
    var a := After(t, Load(pcb));
    assert SelectNext(a.slots, Some(0)) == (a.slots, Some(1));
    assert a.slots[1 := "0"] == t.slots;
    assert SelectNext(t.slots, None) == (t.slots, Some(0));
  }

  lemma AfterSnoc(t: Table, turns: seq<Turn>, turn: Turn)
    requires Proper(t)
    ensures AfterAll(t, turns + [turn]) == After(AfterAll(t, turns), turn)
    ensures Decisions(turns + [turn]) == Decisions(turns) + if Decides(turn) then 1 else 0
    ensures Exits(turns + [turn]) == Exits(turns) + if turn.Exit? then 1 else 0
  {
    assert (turns + [turn])[..|turns|] == turns;
  }

  /** Starvation: from any table with a ready current process in slot 0 and a free slot 1, rounds of
      load, timer and exit bring the table back, two decisions a round, and no slot behind slot 1
      is ever chosen, for any number of rounds, however many of them are ready. */
  lemma {:induction false} ExitsStarve(t: Table, pcb: string, count: nat, j: nat)
    requires |t.slots| >= 2 && t.current == Some(0) && StateOf(t.slots[0]) == "ready" && t.slots[1] == "0"
             && StateOf(pcb) == "ready"
    requires 2 <= j
    ensures var turns := Rounds(pcb, count);
            && AfterAll(t, turns) == t && Decisions(turns) == 2 * count && Exits(turns) == count
            && forall k: nat :: !IsChosen(t, turns, j, k)
  {
    hide StateOf, After, Decides;
    var turns := Rounds(pcb, count);
    if count > 0 {
      var before := Rounds(pcb, count - 1);
      ExitsStarve(t, pcb, count - 1, j);
      RoundRepeats(t, pcb);
      DecidingTurns();
      AfterSnoc(t, before, Load(pcb));
      var one := before + [Load(pcb)];
      AfterSnoc(t, one, Timer);
      var two := one + [Timer];
      AfterSnoc(t, two, Exit);
      assert turns == two + [Exit];
      forall k: nat
        ensures !IsChosen(t, turns, j, k)
      {
        if k <= |turns| {
          if k <= |before| {
            assert turns[..k] == before[..k] && !IsChosen(t, before, j, k);
          } else {
            assert turns[..k] == one || turns[..k] == two || turns[..k] == turns;
          }
        }
      }
    } else {
      forall k: nat
        ensures !IsChosen(t, turns, j, k)
      {
        assert k <= |turns| ==> turns[..k] == [];
      }
    }
  }

  lemma DecidingTurns()
    ensures Decides(Timer) && Decides(Exit) && forall pcb :: !Decides(Load(pcb))
  {
  }
}
