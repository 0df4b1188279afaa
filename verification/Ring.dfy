/** Process control blocks and round-robin selection, as values. A control block is a text
    "PID n NAME name STATE state PRIORITY p MEM_START s MEM_END e PC pc FD_LIST fd fd ...";
    a free slot holds "0". */
module Ring {
  import opened Wrappers
  import opened Columns

  const STATE := 6
  const MEM_START := 10
  const MEM_END := 12
  const PC := 14
  const FIRST_FD := 16

  function StateOf(pcb: string): string {
    GetColumn(pcb, STATE, " ")
  }

  /** A control block proper: at least fifteen columns, single blanks between them. */
  ghost predicate IsRecord(pcb: string) {
    exists ws: seq<string> :: RecordOf(pcb, ws)
  }

  ghost predicate RecordOf(pcb: string, ws: seq<string>) {
    AllWords(ws) && |ws| >= 15 && pcb == Join(ws, " ")
  }

  ghost predicate IsSlot(pcb: string) {
    pcb == "0" || IsRecord(pcb)
  }

  /** Waking a paused process. */
  function Woken(pcb: string): string {
    if StateOf(pcb) == "pause" then ReplaceColumn(pcb, STATE, " ", "ready") else pcb
  }

  function WokenAll(slots: seq<string>): (r: seq<string>)
    ensures |r| == |slots| && forall i :: 0 <= i < |slots| ==> r[i] == Woken(slots[i])
  {
    if slots == [] then [] else WokenAll(slots[..|slots| - 1]) + [Woken(slots[|slots| - 1])]
  }

  /** The first free slot, or the number of slots. */
  function FirstFree(slots: seq<string>, k: nat): (r: nat)
    requires k <= |slots|
    ensures k <= r <= |slots| && (r < |slots| ==> slots[r] == "0")
    ensures forall i :: k <= i < r ==> slots[i] != "0"
    decreases |slots| - k
  {
    if k == |slots| || slots[k] == "0" then k else FirstFree(slots, k + 1)
  }

  /** The first ready slot in ring order from `from` on, looking at `left` slots. */
  function FirstReady(slots: seq<string>, from: nat, left: nat): (r: Option<nat>)
    requires from <= |slots| && |slots| > 0
    ensures r.Some? ==> r.value < |slots| && StateOf(slots[r.value]) == "ready"
    decreases left
  {
    if left == 0 then None
    else
      var p := if from == |slots| then 0 else from;
      if StateOf(slots[p]) == "ready" then Some(p) else FirstReady(slots, p + 1, left - 1)
  }

  /** The decision: the slots after waking, if that was needed, and the chosen slot. */
  function SelectNext(slots: seq<string>, current: Option<nat>): (r: (seq<string>, Option<nat>))
    requires |slots| > 0 && (current.Some? ==> current.value < |slots|)
    ensures |r.0| == |slots| && (r.1.Some? ==> r.1.value < |slots|)
  {
    match FirstReady(slots, if current.Some? then current.value + 1 else 0, |slots|)
    case Some(i) => (slots, Some(i))
    case None =>
      if exists i :: 0 <= i < |slots| && StateOf(slots[i]) == "pause"
      then (WokenAll(slots), FirstReady(WokenAll(slots), 0, |slots|))
      else (slots, None)
  }

  /** Steps from slot `from` to slot `i` around a ring of n slots. */
  function Distance(from: nat, i: nat, n: nat): (d: nat)
    requires from <= n && i < n
    ensures d < n
  {
    var start := if from == n then 0 else from;
    if i >= start then i - start else i + n - start
  }

  /** The chosen slot is ready, and every slot before it in ring order is not. */
  lemma {:induction false} FirstReadyIsFirst(slots: seq<string>, from: nat, left: nat)
    requires |slots| > 0 && from <= |slots| && left <= |slots|
    ensures match FirstReady(slots, from, left)
            case Some(i) => StateOf(slots[i]) == "ready" && Distance(from, i, |slots|) < left &&
                            forall j :: 0 <= j < |slots| && Distance(from, j, |slots|) < Distance(from, i, |slots|) ==>
                                          StateOf(slots[j]) != "ready"
            case None => forall j :: 0 <= j < |slots| && Distance(from, j, |slots|) < left ==>
                StateOf(slots[j]) != "ready"
    decreases left
  {
    hide StateOf;
    if left > 0 {
      var p := if from == |slots| then 0 else from;
      if StateOf(slots[p]) != "ready" {
        FirstReadyIsFirst(slots, p + 1, left - 1);
        forall j | 0 <= j < |slots| && j != p
          ensures Distance(from, j, |slots|) == Distance(p + 1, j, |slots|) + 1
        {
        }
      }
    }
  }

  lemma WokenIsReady(pcb: string)
    requires IsRecord(pcb)
    ensures IsRecord(Woken(pcb))
    ensures StateOf(Woken(pcb)) == if StateOf(pcb) == "pause" then "ready" else StateOf(pcb)
    ensures forall c :: c != STATE ==> GetColumn(Woken(pcb), c, " ") == GetColumn(pcb, c, " ")
  {
    hide GetColumn, ReplaceColumn, Join;
    var ws: seq<string> :| RecordOf(pcb, ws);
    SetColumn(ws, STATE, "ready");
    assert StateOf(pcb) == "pause" ==> RecordOf(Woken(pcb), ws[STATE - 1 := "ready"]);
  }

  /** Setting one column of a record changes that column and no other. */
  lemma SetColumn(ws: seq<string>, c: int, d: string)
    requires AllWords(ws) && 1 <= c <= |ws| && IsWord(d)
    ensures AllWords(ws[c - 1 := d])
    ensures ReplaceColumn(Join(ws, " "), c, " ", d) == Join(ws[c - 1 := d], " ")
    ensures forall k :: GetColumn(ReplaceColumn(Join(ws, " "), c, " ", d), k, " ") == if k == c then d
            else GetColumn(Join(ws, " "), k, " ")
  {
    hide GetColumn, ReplaceColumn, Join;
    AllWordsUpdate(ws, c, d);
    ReplaceOfJoin(ws, c, d);
    forall k: int
      ensures GetColumn(ReplaceColumn(Join(ws, " "), c, " ", d), k, " ") == if k == c then d
              else GetColumn(Join(ws, " "), k, " ")
    {
      GetOfJoin(ws, k);
      GetOfJoin(ws[c - 1 := d], k);
    }
  }

  /** Selection finds a process whenever one is ready or paused; a paused one is woken only when
      none is ready, and then all are. */
  lemma SelectionIsLive(slots: seq<string>, current: Option<nat>)
    requires |slots| > 0 && (current.Some? ==> current.value < |slots|)
    requires forall i :: 0 <= i < |slots| ==> IsSlot(slots[i])
    ensures var r := SelectNext(slots, current);
            && (r.1.Some? <==> exists i :: 0 <= i < |slots| && StateOf(slots[i]) in {"ready", "pause"})
            && (r.1.Some? ==> StateOf(r.0[r.1.value]) == "ready")
            && (r.0 != slots ==>
                  forall i :: 0 <= i < |slots| ==> StateOf(slots[i]) != "ready" && StateOf(r.0[i]) != "pause")
  {
    hide StateOf, Woken, IsRecord;
    var from := if current.Some? then current.value + 1 else 0;
    FirstReadyIsFirst(slots, from, |slots|);
    if FirstReady(slots, from, |slots|).None? {
      forall i | 0 <= i < |slots|
        ensures StateOf(Woken(slots[i])) == if StateOf(slots[i]) == "pause" then "ready" else StateOf(slots[i])
      {
        SlotWakes(slots[i]);
      }
      FirstReadyIsFirst(WokenAll(slots), 0, |slots|);
    }
  }

  /** The whole decision. A ready slot: the first one behind the current slot, or at slot 0 when
      there is none, going around, and nothing is woken. No ready slot: every paused process is
      made ready and the one in the lowest slot runs. Neither: nobody runs. */
  ghost predicate Decision(slots: seq<string>, current: Option<nat>, after: seq<string>, next: Option<nat>)
    requires |slots| > 0
  {
    var n, from := |slots|, if current.Some? then current.value + 1 else 0;
    if exists i :: 0 <= i < n && StateOf(slots[i]) == "ready" then
      && after == slots && next.Some? && next.value < n && StateOf(slots[next.value]) == "ready"
      && forall j :: 0 <= j < n && Precedes(from, j, next.value, n) ==> StateOf(slots[j]) != "ready"
    else if exists i :: 0 <= i < n && StateOf(slots[i]) == "pause" then
      && Awake(slots, after) && next.Some? && next.value < n && StateOf(slots[next.value]) == "pause"
      && forall j :: 0 <= j < next.value ==> StateOf(slots[j]) != "pause"
    else after == slots && next == None
  }

  /** Going around from slot `from`, slot j comes before slot k. */
  ghost predicate Precedes(from: nat, j: nat, k: nat, n: nat)
    requires n > 0
  {
    (j - from) % n < (k - from) % n
  }

  /** Every paused process is ready; nothing else has changed. */
  ghost predicate Awake(slots: seq<string>, after: seq<string>) {
    && |after| == |slots|
    && forall i :: 0 <= i < |slots| ==>
         if StateOf(slots[i]) != "pause" then after[i] == slots[i]
         else StateOf(after[i]) == "ready" && forall c :: c != STATE ==>
                GetColumn(after[i], c, " ") == GetColumn(slots[i], c, " ")
  }

  lemma Multiple(n: nat, q: int)
    ensures q >= 0 ==> n * q >= 0
    ensures q <= -2 ==> n * q <= -2 * n
  {
    if q <= -2 {
      assert n * q + 2 * n == n * (q + 2);
    }
  }

  lemma OneBelow(a: int, d: nat, n: nat)
    requires d < n && a == d - n
    ensures a % n == d
  {
    var q := a / n;
    assert a == n * q + a % n;
    Multiple(n, q);
    assert q == -1;
  }

  lemma Small(a: int, n: nat)
    requires 0 <= a < n
    ensures a % n == a
  {
  }

  lemma Around(from: nat, j: nat, n: nat)
    requires from <= n && j < n
    ensures (j - from) % n == Distance(from, j, n)
  {
    var a, d := j - from, Distance(from, j, n);
    assert a == d || a == d - n;
    if a == d {
      Small(a, n);
    } else {
      OneBelow(a, d, n);
    }
  }

  lemma PrecedesIsCloser(from: nat, j: nat, k: nat, n: nat)
    requires from <= n && j < n && k < n
    ensures Precedes(from, j, k, n) <==> Distance(from, j, n) < Distance(from, k, n)
  {
    Around(from, j, n);
    Around(from, k, n);
  }

  lemma SelectionIsDecision(slots: seq<string>, current: Option<nat>)
    requires |slots| > 0 && (current.Some? ==> current.value < |slots|)
    requires forall i :: 0 <= i < |slots| ==> IsSlot(slots[i])
    ensures var r := SelectNext(slots, current); Decision(slots, current, r.0, r.1)
  {
    hide StateOf, WokenAll, IsSlot, Awake, Distance, FirstReady, Precedes;
    var n, from := |slots|, if current.Some? then current.value + 1 else 0;
    FirstReadyIsFirst(slots, from, n);
    var first := FirstReady(slots, from, n);
    if first.Some? {
      forall j | 0 <= j < n
        ensures Precedes(from, j, first.value, n) <==> Distance(from, j, n) < Distance(from, first.value, n)
      {
        PrecedesIsCloser(from, j, first.value, n);
      }
    } else {
      assert forall j :: 0 <= j < n ==> Distance(from, j, n) < n;
      if exists i :: 0 <= i < n && StateOf(slots[i]) == "pause" {
        LowestWakes(slots);
      }
    }
  }

  /** With no slot ready, the search behind the waking finds the lowest paused slot. */
  lemma LowestWakes(slots: seq<string>)
    requires |slots| > 0 && forall i :: 0 <= i < |slots| ==> IsSlot(slots[i]) && StateOf(slots[i]) != "ready"
    requires exists i :: 0 <= i < |slots| && StateOf(slots[i]) == "pause"
    ensures Awake(slots, WokenAll(slots))
    ensures var r := FirstReady(WokenAll(slots), 0, |slots|);
            r.Some? && StateOf(slots[r.value]) == "pause"
            && forall j :: 0 <= j < r.value ==> StateOf(slots[j]) != "pause"
  {
    hide StateOf, Woken, IsSlot, Awake, FirstReady;
    var w := WokenAll(slots);
    forall i | 0 <= i < |slots|
      ensures StateOf(w[i]) == if StateOf(slots[i]) == "pause" then "ready" else StateOf(slots[i])
    {
      SlotWakes(slots[i]);
    }
    FromZero(w);
    AllAwake(slots);
  }

  lemma FromZero(slots: seq<string>)
    requires |slots| > 0
    ensures match FirstReady(slots, 0, |slots|)
            case Some(i) => StateOf(slots[i]) == "ready" && forall j :: 0 <= j < i ==> StateOf(slots[j]) != "ready"
            case None => forall j :: 0 <= j < |slots| ==> StateOf(slots[j]) != "ready"
  {
    hide StateOf, FirstReady;
    FirstReadyIsFirst(slots, 0, |slots|);
    assert forall j :: 0 <= j < |slots| ==> Distance(0, j, |slots|) == j;
  }

  lemma AllAwake(slots: seq<string>)
    requires forall i :: 0 <= i < |slots| ==> IsSlot(slots[i])
    ensures Awake(slots, WokenAll(slots))
  {
    hide IsRecord, GetColumn, ReplaceColumn;
    FreeHasNoState();
    forall i | 0 <= i < |slots| && StateOf(slots[i]) == "pause"
      ensures StateOf(WokenAll(slots)[i]) == "ready" && forall c :: c != STATE ==>
                GetColumn(WokenAll(slots)[i], c, " ") == GetColumn(slots[i], c, " ")
    {
      WokenIsReady(slots[i]);
    }
  }

  lemma SlotWakes(pcb: string)
    requires IsSlot(pcb)
    ensures StateOf(Woken(pcb)) == if StateOf(pcb) == "pause" then "ready" else StateOf(pcb)
    ensures IsSlot(Woken(pcb))
  {
    hide Woken, StateOf;
    if pcb == "0" {
      FreeHasNoState();
    } else {
      WokenIsReady(pcb);
    }
  }

  lemma FreeHasNoState()
    ensures StateOf("0") == "" && Woken("0") == "0"
  {
    assert Join(["0"], " ") == "0";
    GetOfJoin(["0"], STATE);
  }

  // ---- Bounded waiting ----

  /** The slot chosen at each of a sequence of decisions; `views[k]` are the slots at the k-th. */
  function Chosen(views: seq<seq<string>>, current: Option<nat>, n: nat, k: nat): (r: Option<nat>)
    requires k < |views| && n > 0 && (current.Some? ==> current.value < n)
    requires forall i :: 0 <= i < |views| ==> |views[i]| == n
    ensures r.Some? ==> r.value < n
  {
    SelectNext(views[k], if k == 0 then current else Chosen(views, current, n, k - 1)).1
  }

  lemma ReadyIsFound(slots: seq<string>, current: Option<nat>, j: nat)
    requires |slots| > 0 && (current.Some? ==> current.value < |slots|) && j < |slots| && StateOf(slots[j]) == "ready"
    ensures var from := if current.Some? then current.value + 1 else 0;
            var r := SelectNext(slots, current).1;
            r.Some? && Distance(from, r.value, |slots|) <= Distance(from, j, |slots|)
    ensures SelectNext(slots, current).0 == slots
  {
    hide StateOf;
    FirstReadyIsFirst(slots, if current.Some? then current.value + 1 else 0, |slots|);
  }

  /** While slot j stays ready and is passed over, every decision brings the ring closer to it. */
  lemma {:induction false} GetsCloser(views: seq<seq<string>>, current: Option<nat>, n: nat, j: nat, k: nat)
    requires k < |views| && n > 0 && (current.Some? ==> current.value < n) && j < n
    requires forall i :: 0 <= i < |views| ==> |views[i]| == n && StateOf(views[i][j]) == "ready"
    requires forall i :: 0 <= i <= k ==> Chosen(views, current, n, i) != Some(j)
    ensures var c := Chosen(views, current, n, k);
            c.Some? && Distance(c.value + 1, j, n) + k + 1 < n
  {
    hide StateOf, SelectNext;
    assert Chosen(views, current, n, k) != Some(j);
    ReadyIsFound(views[k], if k == 0 then current else Chosen(views, current, n, k - 1), j);
    if k > 0 {
      GetsCloser(views, current, n, j, k - 1);
    }
  }

  /** Bounded waiting: a slot that stays ready is chosen within n decisions, n being the number
      of slots, whatever happens to the other slots between decisions. */
  lemma BoundedWaiting(views: seq<seq<string>>, current: Option<nat>, n: nat, j: nat)
    requires |views| == n && n > 0 && (current.Some? ==> current.value < n) && j < n
    requires forall i :: 0 <= i < n ==> |views[i]| == n && StateOf(views[i][j]) == "ready"
    ensures exists k :: 0 <= k < n && Chosen(views, current, n, k) == Some(j)
  {
    hide StateOf, Chosen;
    if forall i :: 0 <= i < n ==> Chosen(views, current, n, i) != Some(j) {
      GetsCloser(views, current, n, j, n - 1);
    }
  }

  /** The current slot is the last choice: it is chosen again only when no other is ready. */
  lemma CurrentIsLast(slots: seq<string>, current: nat)
    requires current < |slots| && SelectNext(slots, Some(current)).1 == Some(current)
    ensures forall j :: 0 <= j < |slots| && j != current ==> StateOf(slots[j]) != "ready"
  {
    hide StateOf, Woken;
    FirstReadyIsFirst(slots, current + 1, |slots|);
    forall j | 0 <= j < |slots| && j != current
      ensures StateOf(slots[j]) != "ready"
    {
      assert Distance(current + 1, j, |slots|) < Distance(current + 1, current, |slots|);
    }
  }
}
