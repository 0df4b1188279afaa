/** The process memory allocator: fixed-size blocks taken from a free list kept as text, or cut
    from the start of free memory. */
module Pool {
  import opened Wrappers
  import opened Text
  import opened Columns

  // ---- The free list as text ----

  /** The text of a free list: every address followed by a blank. */
  function ListText(xs: seq<int>): string {
    if xs == [] then "" else PrintInt(xs[0]) + " " + ListText(xs[1..])
  }

  /** What a release does: the address, a blank, the list. */
  function Pushed(start: string, list: string): string {
    start + " " + list
  }

  /** What an allocation does to the list: clear column 1, then drop one leading blank. */
  function Popped(list: string): string {
    var cleared := ReplaceColumn(list, 1, " ", "");
    if StartsWith(cleared, " ") then cleared[1..] else cleared
  }

  function Printed(xs: seq<int>): (ws: seq<string>)
    ensures |ws| == |xs| && forall i :: 0 <= i < |ws| ==> ws[i] == PrintInt(xs[i])
  {
    seq(|xs|, i requires 0 <= i < |xs| => PrintInt(xs[i]))
  }

  lemma PrintedAreWords(xs: seq<int>)
    ensures AllWords(Printed(xs)) && AllNoBlank(Printed(xs) + [""])
  {
    forall i | 0 <= i < |xs|
      ensures IsWord(Printed(xs)[i])
    {
      PrintIsWord(xs[i]);
    }
  }

  lemma {:induction false} JoinCons(w: string, ws: seq<string>)
    requires |ws| > 0
    ensures Join([w] + ws, " ") == w + " " + Join(ws, " ")
  {
    var all := [w] + ws;
    assert all[..|all| - 1] == [w] + ws[..|ws| - 1];
    if |ws| > 1 {
      JoinCons(w, ws[..|ws| - 1]);
    } else {
      assert all[..1] == [w];
    }
  }

  lemma {:induction false} ListIsJoin(xs: seq<int>)
    ensures ListText(xs) == Join(Printed(xs) + [""], " ")
  {
    hide PrintInt;
    if xs == [] {
      assert Printed(xs) + [""] == [""];
    } else {
      ListIsJoin(xs[1..]);
      JoinCons(PrintInt(xs[0]), Printed(xs[1..]) + [""]);
      assert Printed(xs) + [""] == [PrintInt(xs[0])] + (Printed(xs[1..]) + [""]);
    }
  }

  lemma ListColumns(xs: seq<int>)
    ensures Fields(ListText(xs), " ") == Printed(xs) + [""]
    ensures Tokens(ListText(xs), " ") == Printed(xs)
  {
    hide PrintInt, Join, Fields;
    PrintedAreWords(xs);
    ListIsJoin(xs);
    FieldsOfJoin(Printed(xs) + [""]);
    NonEmptyOfWords(Printed(xs));
    assert (Printed(xs) + [""])[..|xs|] == Printed(xs);
  }

  /** The free list is a stack: column 1 is the address pushed last, popping removes it, and the
      empty list has no column 1. */
  lemma ListIsStack(x: int, xs: seq<int>)
    ensures Pushed(PrintInt(x), ListText(xs)) == ListText([x] + xs)
    ensures GetColumn(ListText([x] + xs), 1, " ") == PrintInt(x)
    ensures Popped(ListText([x] + xs)) == ListText(xs)
    ensures GetColumn(ListText([]), 1, " ") == ""
  {
    hide PrintInt, Fields, NonEmpty, Join;
    ListColumns([x] + xs);
    ListColumns([]);
    assert ([x] + xs)[1..] == xs;
    ClearFirst(x, xs);
  }

  lemma PrintedCons(x: int, xs: seq<int>)
    ensures Printed([x] + xs) == [PrintInt(x)] + Printed(xs)
  {
  }

  lemma ClearFirst(x: int, xs: seq<int>)
    ensures ReplaceColumn(ListText([x] + xs), 1, " ", "") == " " + ListText(xs)
  {
    hide PrintInt, Fields, Join;
    hide Printed, ListText;
    ListColumns([x] + xs);
    var ws := Printed([x] + xs) + [""];
    PrintedCons(x, xs);
    assert ws[0 := ""] == [""] + (Printed(xs) + [""]);
    JoinCons("", Printed(xs) + [""]);
    ListIsJoin(xs);
  }

  // ---- Blocks ----

  /** Blocks by their start: those of live slots, the pooled ones, and those that failed loads
      have lost; `next` is the start of free memory. */
  datatype Blocks = Blocks(live: map<nat, int>, pooled: seq<int>, lost: seq<int>, next: int)

  /** An allocation of size + 1 cells: from the pool, else from free memory if it ends at or
      before `limit`. */
  function Allocated(b: Blocks, size: nat, limit: int): (r: (Option<int>, Blocks)) {
    if b.pooled != [] then (Some(b.pooled[0]), b.(pooled := b.pooled[1..]))
    else if limit < b.next + size then (None, b)
    else (Some(b.next), b.(next := b.next + size + 1))
  }

  /** What a load does to the blocks. A load that fails after the allocation loses the block. */
  function Loaded(b: Blocks, size: nat, limit: int, slot: nat, succeeds: bool): Blocks {
    var r := Allocated(b, size, limit);
    match r.0
    case None => b
    case Some(start) =>
      if succeeds then r.1.(live := r.1.live[slot := start]) else r.1.(lost := r.1.lost + [start])
  }

  /** Cleaning a control block returns its memory to the head of the pool. */
  function Cleaned(b: Blocks, slot: nat): Blocks {
    if slot !in b.live then b else b.(live := b.live - {slot}, pooled := [b.live[slot]] + b.pooled)
  }

  /** Each block in one place: in a live slot, in the pool, or lost. */
  datatype Home = Live(slot: nat) | Pooled(index: nat) | Lost(index: nat)

  function At(b: Blocks, h: Home): Option<int> {
    match h
    case Live(s) => if s in b.live then Some(b.live[s]) else None
    case Pooled(i) => if i < |b.pooled| then Some(b.pooled[i]) else None
    case Lost(i) => if i < |b.lost| then Some(b.lost[i]) else None
  }

  /** The starts that the allocator has handed out: base, base + size + 1, ... below `next`. */
  ghost predicate OnGrid(start: int, base: int, size: nat, next: int) {
    base <= start && start + size < next && (start - base) % (size + 1) == 0
  }

  /** The blocks tile [base, next): every block is on the grid, and no two coincide. */
  ghost predicate Tiled(b: Blocks, base: int, size: nat) {
    && base <= b.next && (b.next - base) % (size + 1) == 0
    && (forall h :: At(b, h).Some? ==> OnGrid(At(b, h).value, base, size, b.next))
    && (forall h, k :: At(b, h).Some? && h != k ==> At(b, h) != At(b, k))
  }

  /** Conservation: handed-out blocks are live, pooled or lost. */
  ghost predicate Conserved(b: Blocks, base: int, size: nat) {
    b.next == base + (size + 1) * (|b.live| + |b.pooled| + |b.lost|)
  }

  lemma Multiples(a: int, b: int, n: nat)
    ensures a <= b ==> a * n <= b * n
  {
    if a <= b {
      assert b * n - a * n == (b - a) * n;
    }
  }

  lemma GridGap(s: int, t: int, base: int, size: nat)
    requires (s - base) % (size + 1) == 0 && (t - base) % (size + 1) == 0 && s < t
    ensures s + size < t
  {
    var p, q := (s - base) / (size + 1), (t - base) / (size + 1);
    assert s - base == p * (size + 1) && t - base == q * (size + 1);
    assert t - s == (q - p) * (size + 1);
    if q <= p {
      Multiples(q, p, size + 1);
    }
    Multiples(1, q - p, size + 1);
  }

  /** Two blocks in different places share no cell, and every block lies in [base, next). */
  lemma BlocksAreDisjoint(b: Blocks, base: int, size: nat, h: Home, k: Home)
    requires Tiled(b, base, size) && At(b, h).Some? && At(b, k).Some? && h != k
    ensures base <= At(b, h).value && At(b, h).value + size < b.next
    ensures At(b, h).value + size < At(b, k).value || At(b, k).value + size < At(b, h).value
  {
    var s, t := At(b, h).value, At(b, k).value;
    assert s != t;
    if s < t {
      GridGap(s, t, base, size);
    } else {
      GridGap(t, s, base, size);
    }
  }

  lemma NextOnGrid(a: int, n: int)
    requires n > 0 && a % n == 0
    ensures (a + n) % n == 0
  {
    assert (a + n) / n * n + (a + n) % n == a + n && a / n * n + a % n == a;
    var q := (a + n) / n - a / n;
    assert q * n == n - (a + n) % n;
    if q <= 0 {
      Multiples(q, 0, n);
    }
    if q >= 2 {
      Multiples(2, q, n);
    }
  }

  /** Where a block was before an allocation took the head of the pool. */
  function Before(b: Blocks, h: Home): Home {
    if h.Pooled? && b.pooled != [] then Pooled(h.index + 1) else h
  }

  /** An allocated block is on the grid and no longer anywhere else. */
  lemma AllocationLeaves(b: Blocks, base: int, size: nat, limit: int)
    requires Tiled(b, base, size) && Allocated(b, size, limit).0.Some?
    ensures var r := Allocated(b, size, limit);
            && Tiled(r.1, base, size) && OnGrid(r.0.value, base, size, r.1.next)
            && forall h :: At(r.1, h) != r.0
  {
    var r := Allocated(b, size, limit);
    NextOnGrid(b.next - base, size + 1);
    assert b.pooled != [] ==> At(b, Pooled(0)) == r.0;
    forall h | At(r.1, h).Some?
      ensures At(b, Before(b, h)) == At(r.1, h) && OnGrid(At(r.1, h).value, base, size, r.1.next) && At(r.1, h) != r.0
    {
      assert At(b, Before(b, h)) == At(r.1, h);
      assert b.pooled != [] ==> Before(b, h) != Pooled(0);
    }
    forall h, k | At(r.1, h).Some? && h != k
      ensures At(r.1, h) != At(r.1, k)
    {
      if At(r.1, k).Some? {
        assert Before(b, h) != Before(b, k);
      }
    }
  }

  /** A block that is nowhere can be put anywhere. */
  lemma PlacementTiles(b: Blocks, base: int, size: nat, start: int, slot: nat, succeeds: bool)
    requires Tiled(b, base, size) && OnGrid(start, base, size, b.next) && slot !in b.live
    requires forall h :: At(b, h) != Some(start)
    ensures Tiled(if succeeds then b.(live := b.live[slot := start]) else b.(lost := b.lost + [start]), base, size)
  {
    var r := if succeeds then b.(live := b.live[slot := start]) else b.(lost := b.lost + [start]);
    var home := if succeeds then Live(slot) else Lost(|b.lost|);
    assert forall h :: h != home ==> At(r, h) == At(b, h);
    assert At(r, home) == Some(start);
  }

  /** Loading keeps the tiling and conserves blocks; free memory never passes the limit; a block
      is lost exactly when a load fails after its allocation. */
  lemma LoadKeepsTiling(b: Blocks, base: int, size: nat, limit: int, slot: nat, succeeds: bool)
    requires Tiled(b, base, size) && Conserved(b, base, size) && slot !in b.live
    ensures var r := Loaded(b, size, limit, slot, succeeds);
            && Tiled(r, base, size) && Conserved(r, base, size) && r.next >= b.next
            && (r.next != b.next ==> r.next <= limit + 1)
            && |r.lost| == |b.lost| + if Allocated(b, size, limit).0.Some? && !succeeds then 1 else 0
  {
    hide Tiled, OnGrid, At;
    var a := Allocated(b, size, limit);
    if a.0.Some? {
      AllocationLeaves(b, base, size, limit);
      PlacementTiles(a.1, base, size, a.0.value, slot, succeeds);
      CountStep(|b.live| + |b.pooled| + |b.lost|, size);
    }
  }

  lemma CountStep(n: nat, size: nat)
    ensures (size + 1) * (n + 1) == (size + 1) * n + size + 1
  {
  }

  lemma CleanKeepsTiling(b: Blocks, base: int, size: nat, slot: nat)
    requires Tiled(b, base, size) && Conserved(b, base, size)
    ensures var r := Cleaned(b, slot);
            Tiled(r, base, size) && Conserved(r, base, size) && r.next == b.next && r.lost == b.lost
  {
    if slot in b.live {
      var r := Cleaned(b, slot);
      forall h | At(r, h).Some?
        ensures At(b, Source(slot, h)) == At(r, h)
      {
      }
      assert |r.live| == |b.live| - 1 by { assert b.live.Keys == r.live.Keys + {slot}; }
      forall h, k | At(r, h).Some? && h != k
        ensures At(r, h) != At(r, k)
      {
        if At(r, k).Some? {
          assert Source(slot, h) != Source(slot, k);
        }
      }
    }
  }

  /** Where a block was before slot `slot` was cleaned. */
  function Source(slot: nat, h: Home): Home {
    if h.Pooled? then (if h.index == 0 then Live(slot) else Pooled(h.index - 1)) else h
  }

  // ---- All runs ----

  datatype Event = Load(slot: nat, limit: int, succeeds: bool) | Clean(slot: nat)

  function After(b: Blocks, size: nat, events: seq<Event>): Blocks {
    if events == [] then b
    else
      var before := After(b, size, events[..|events| - 1]);
      match events[|events| - 1]
      case Load(slot, limit, succeeds) => if slot in before.live then before
        else Loaded(before, size, limit, slot, succeeds)
      case Clean(slot) => Cleaned(before, slot)
  }

  /** In every reachable state the blocks are pairwise disjoint, lie in [base, next), and all
      memory handed out is live, pooled or lost by a failed load. */
  lemma {:induction false} AllRunsTiled(base: int, size: nat, events: seq<Event>)
    ensures var b := After(Blocks(map[], [], [], base), size, events);
            Tiled(b, base, size) && Conserved(b, base, size)
  {
    var empty := Blocks(map[], [], [], base);
    if events != [] {
      var before := events[..|events| - 1];
      AllRunsTiled(base, size, before);
      var b := After(empty, size, before);
      match events[|events| - 1]
      case Load(slot, limit, succeeds) =>
        if slot !in b.live {
          LoadKeepsTiling(b, base, size, limit, slot, succeeds);
        }
      case Clean(slot) => CleanKeepsTiling(b, base, size, slot);
    }
  }
}
