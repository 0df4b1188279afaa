/** The kernel's scheduler and process loader, updating control blocks, memory and the free list
    in place; proved against `Ring.dfy` and `Pool.dfy`. */
module SchedulerObject {
  import opened Wrappers
  import opened Text
  import opened Columns
  import opened Ring
  import opened Pcb
  import opened Numbers
  import P = Pool
  import T = Turns

  datatype KillReply = Killed | NoSuchPid | OwnPid

  /** The regions of free memory: descriptor cells, control blocks, and from `listEnd` on blocks. */
  datatype Regions = Regions(descStart: int, listStart: int, listEnd: int)

  /** Cuts the descriptor cells and the control blocks from free memory; `None` is the kernel panic
      when 50 further cells are not left. */
  method PrepareMemory(freeStart: int, descCount: nat, procCount: nat, freeEnd: int) returns (r: Option<Regions>)
    ensures r.Some? <==> freeStart + descCount + procCount + 50 < freeEnd
    ensures r.Some? ==>
              && r.value.descStart == freeStart && r.value.listStart == freeStart + descCount
              && r.value.listEnd == r.value.listStart + procCount && r.value.listEnd + 50 < freeEnd
  {
    var descStart := freeStart;
    var listStart := descStart + descCount;
    var listEnd := listStart + procCount;
    var needed := listEnd + 50;
    r := if needed < freeEnd then Some(Regions(descStart, listStart, listEnd)) else None;
  }

  datatype LoadReply = Pid(pid: int) | NoSlot | NoMemory | NotOpened | TooBig

  class Scheduler {
    const slots: array<string>
    const ram: array<string>
    const descriptors: array<string>
    const size: nat
    const base: int
    var timer: string
    var procStart: string
    var procEnd: string
    var current: Option<nat>
    var freeList: string
    var freeStart: int
    var freeEnd: int
    var lastPid: int
    ghost var blocks: P.Blocks
    ghost var sound: set<nat>

    /** Slot i is free or used. A sound control block, one loaded with a word for its priority,
        names the block that the allocator gave it and lists descriptors. */
    ghost predicate SlotOk(i: nat)
      reads this`blocks, this`sound, slots
      requires i < slots.Length
    {
      if i in blocks.live then slots[i] != "0"
        && (i in sound ==> HoldsBlock(slots[i], blocks.live[i], size) && FdsOk(slots[i]))
      else slots[i] == "0"
    }

    ghost predicate PoolOk()
      reads this`blocks, this`freeList, this`freeStart
    {
      && freeList == P.ListText(blocks.pooled) && freeStart == blocks.next
      && P.Tiled(blocks, base, size) && P.Conserved(blocks, base, size)
    }

    ghost predicate Valid()
      reads this, slots
    {
      && slots.Length >= 1 && slots != ram && slots != descriptors && ram != descriptors && size >= FIRST_INSTRUCTION
      && 0 <= base
      && (current.Some? ==> current.value < slots.Length)
      && PoolOk() && freeEnd < ram.Length && blocks.next <= ram.Length && InInt(ram.Length + size)
      && (forall i :: i in blocks.live ==> i < slots.Length) && InInt(descriptors.Length)
      && forall i :: 0 <= i < slots.Length ==> SlotOk(i)
    }

    /** An empty process table in the given regions; blocks are cut from their end on. */
    constructor (r: Regions, cells: nat, size: nat, freeEnd: int)
      requires 0 <= r.descStart <= r.listStart < r.listEnd <= cells && size >= FIRST_INSTRUCTION
      requires freeEnd < cells && InInt(cells + size)
      ensures Valid() && current == None && base == r.listEnd && blocks == P.Blocks(map[], [], [], base)
      ensures fresh(slots) && fresh(ram) && fresh(descriptors) && slots[..] == seq(r.listEnd - r.listStart, i => "0")
      ensures descriptors.Length == r.listStart - r.descStart
    {
      slots := new string[r.listEnd - r.listStart](i => "0");
      ram := new string[cells](i => "0");
      descriptors := new string[r.listStart - r.descStart](i => "0");
      this.size := size;
      base := r.listEnd;
      timer := "-1";
      procStart := "";
      procEnd := "";
      sound := {};
      current := None;
      freeList := "";
      freeStart := r.listEnd;
      this.freeEnd := freeEnd;
      lastPid := 0;
      blocks := P.Blocks(map[], [], [], r.listEnd);
      new;
      assert P.ListText([]) == "";
    }

    /** Wakes every paused process; tells whether there was one. */
    method PauseToReady() returns (found: bool)
      requires Valid()
      modifies slots
      ensures Valid() && slots[..] == WokenAll(old(slots[..]))
      ensures found <==> exists i :: 0 <= i < slots.Length && StateOf(old(slots[..])[i]) == "pause"
    {
      hide IsRecord, GetColumn, ReplaceColumn, StateOf, P.Tiled, P.Conserved, HoldsBlock, FdsOk;
      found := false;
      var p := 0;
      while p < slots.Length
        invariant 0 <= p <= slots.Length
        invariant forall i :: 0 <= i < p ==> slots[i] == Woken(old(slots[i]))
        invariant forall i :: p <= i < slots.Length ==> slots[i] == old(slots[i])
        invariant found <==> exists i :: 0 <= i < p && StateOf(old(slots[..])[i]) == "pause"
      {
        if StateOf(slots[p]) == "pause" {
          found := true;
          slots[p] := ReplaceColumn(slots[p], STATE, " ", "ready");
        }
        p := p + 1;
      }
      forall i | 0 <= i < slots.Length
        ensures SlotOk(i)
      {
        assert old(SlotOk(i));
        EntryWakes(old(slots[i]), i in blocks.live, i in sound, if i in blocks.live then blocks.live[i] else 0, size);
      }
    }

    /** Looks for a ready slot in ring order, starting at `from`. */
    method FindReady(from: nat) returns (r: Option<nat>)
      requires Valid() && from <= slots.Length
      ensures r == FirstReady(slots[..], from, slots.Length)
    {
      hide StateOf, HoldsBlock, P.Tiled, P.Conserved;
      var p, counter := from, 0;
      while counter != slots.Length
        invariant 0 <= counter <= slots.Length && 0 <= p <= slots.Length
        invariant FirstReady(slots[..], p, slots.Length - counter) == FirstReady(slots[..], from, slots.Length)
        decreases slots.Length - counter
      {
        if p == slots.Length {
          p := 0;
        }
        if StateOf(slots[p]) == "ready" {
          return Some(p);
        }
        p := p + 1;
        counter := counter + 1;
      }
      r := None;
    }

    /** Round robin: the first ready slot behind the current one. When there is none, paused
        processes are woken and the search restarts at the first slot. */
    method SelectNext() returns (r: Option<nat>)
      requires Valid()
      modifies slots
      ensures Valid() && (slots[..], r) == Ring.SelectNext(old(slots[..]), current)
    {
      hide StateOf, HoldsBlock, P.Tiled, P.Conserved;
      r := FindReady(if current.Some? then current.value + 1 else 0);
      if r.None? {
        var found := PauseToReady();
        if found {
          r := FindReady(0);
        } else {
          NothingWakes(old(slots[..]));
        }
      }
    }

    /** Picks the process that runs next. */
    method Dispatch()
      requires Valid()
      modifies this`current, slots
      ensures Valid() && (slots[..], current) == Ring.SelectNext(old(slots[..]), old(current))
      ensures (forall i :: 0 <= i < slots.Length ==> IsSlot(old(slots[..])[i])) ==>
                Decision(old(slots[..]), old(current), slots[..], current)
      ensures T.Table(slots[..], current) == T.After(T.Table(old(slots[..]), old(current)), T.Timer)
    {
      hide StateOf, HoldsBlock, P.Tiled, P.Conserved, Ring.SelectNext, IsSlot, Decision;
      if forall i :: 0 <= i < slots.Length ==> IsSlot(slots[..][i]) {
        SelectionIsDecision(slots[..], current);
      }
      var next := SelectNext();
      current := next;
    }

    /** The current process gives up its turn: it is paused, and the timer is set to fire at the
        next tick. */
    method Pause() returns (ok: bool)
      requires Valid() && (current.Some? ==> slots[current.value] != "0")
      modifies slots, this`timer
      ensures Valid() && ok == current.Some? && timer == (if ok then "0" else old(timer))
      ensures forall i :: 0 <= i < slots.Length ==>
                if current == Some(i) then slots[i] == ReplaceColumn(old(slots[i]), STATE, " ", "pause")
                  else slots[i] == old(slots[i])
      ensures T.Table(slots[..], current) == T.After(T.Table(old(slots[..]), current), T.Pause)
      ensures ok && current.value in sound ==>
                && StateOf(slots[current.value]) == "pause"
                && forall c :: c != STATE ==>
                     GetColumn(slots[current.value], c, " ") == GetColumn(old(slots[current.value]), c, " ")
    {
      hide StateOf, GetColumn, ReplaceColumn, IsRecord, P.Tiled, P.Conserved, FdsOk;
      ok := current.Some?;
      if ok {
        var i := current.value;
        assert SlotOk(i);
        if i in sound {
          PausedHolds(slots[i], blocks.live[i], size);
        }
        ReplacedIsUsed(slots[i], STATE, "pause");
        slots[i] := ReplaceColumn(slots[i], STATE, " ", "pause");
        timer := "0";
        forall k | 0 <= k < slots.Length
          ensures SlotOk(k)
        {
          assert old(SlotOk(k));
        }
      }
    }

    // ---- Loading ----

    method FindFree() returns (slot: nat)
      requires Valid()
      ensures slot == FirstFree(slots[..], 0)
    {
      hide HoldsBlock, P.Tiled, P.Conserved;
      slot := 0;
      while slot < slots.Length && slots[slot] != "0"
        invariant 0 <= slot <= slots.Length && FirstFree(slots[..], slot) == FirstFree(slots[..], 0)
      {
        slot := slot + 1;
      }
    }

    /** What taking a block does to the free list and to the start of free memory, given before: the
        head of the list; from free memory when the list is empty and size + 1 more cells end at or
        before freeEnd; otherwise nothing. */
    ghost predicate Takes(list: string, start: int, r: Option<int>)
      reads this`freeList, this`freeStart, this`freeEnd
    {
      && (list != "" ==> r.Some? && list == PrintInt(r.value) + " " + freeList && freeStart == start)
      && (list == "" && start + size <= freeEnd ==>
            r == Some(start) && freeList == "" && freeStart == start + size + 1)
      && (list == "" && freeEnd < start + size ==> r == None && freeList == "" && freeStart == start)
    }

    /** Takes a block: column 1 of the free list, else the start of free memory. */
    method Allocate() returns (r: Option<int>)
      requires Valid()
      modifies this`freeList, this`freeStart
      ensures var a := P.Allocated(blocks, size, freeEnd);
              r == a.0 && freeList == P.ListText(a.1.pooled) && freeStart == a.1.next
      ensures r.Some? ==> base <= r.value && r.value + size < ram.Length && InInt(r.value)
      ensures Takes(old(freeList), old(freeStart), r)
    {
      hide HoldsBlock, GetColumn, P.Popped, P.Conserved;
      P.ListIsStack(0, []);
      PooledInside();
      if blocks.pooled != [] {
        assert blocks.pooled == [blocks.pooled[0]] + blocks.pooled[1..];
        P.ListIsStack(blocks.pooled[0], blocks.pooled[1..]);
        StoiPrint(blocks.pooled[0]);
      }
      var first := GetColumn(freeList, 1, " ");
      if first != "" {
        r := Stoi(first);
        freeList := P.Popped(freeList);
      } else if freeEnd < freeStart + size {
        r := None;
      } else {
        r := Some(freeStart);
        freeStart := freeStart + size + 1;
      }
    }

    lemma PooledInside()
      requires Valid()
      ensures blocks.pooled != [] ==>
                && base <= blocks.pooled[0] && blocks.pooled[0] + size < ram.Length && InInt(blocks.pooled[0])
    {
      if blocks.pooled != [] {
        assert P.At(blocks, P.Pooled(0)) == Some(blocks.pooled[0]);
      }
    }

    /** Copies the lines of a program to the block, from its cell 12 on, and stops when the block
        is used up. */
    method LoadLines(start: int, lines: seq<string>) returns (fits: bool)
      requires 0 <= start && start + size < ram.Length && size >= FIRST_INSTRUCTION
      modifies ram
      ensures fits <==> FIRST_INSTRUCTION + |lines| <= size
      ensures forall i :: 0 <= i < |lines| && FIRST_INSTRUCTION + i <= size ==>
                ram[start + FIRST_INSTRUCTION + i] == lines[i]
      ensures forall c :: 0 <= c < ram.Length && !(start + FIRST_INSTRUCTION <= c <= start + size) ==>
                ram[c] == old(ram[c])
    {
      var ptr, counter := start + FIRST_INSTRUCTION, 1;
      while counter <= |lines|
        invariant 1 <= counter <= |lines| + 1 && ptr == start + FIRST_INSTRUCTION + counter - 1 <= start + size
        invariant forall i :: 0 <= i < counter - 1 ==> ram[start + FIRST_INSTRUCTION + i] == lines[i]
        invariant forall c :: 0 <= c < ram.Length && !(start + FIRST_INSTRUCTION <= c < ptr) ==> ram[c] == old(ram[c])
      {
        ram[ptr] := lines[counter - 1];
        ptr := ptr + 1;
        counter := counter + 1;
        if start + size < ptr {
          return false;
        }
      }
      fits := true;
    }

    /** Fills a block for a program: its arguments in cells 1 to 3 and its lines from cell 12 on. */
    method Fill(start: int, command: string, program: Option<seq<string>>) returns (reply: LoadReply)
      requires 0 <= start && start + size < ram.Length && size >= FIRST_INSTRUCTION
      modifies ram
      ensures reply == if program.None? then NotOpened else if FIRST_INSTRUCTION + |program.value| > size then TooBig
              else Pid(0)
      ensures forall c :: 0 <= c < ram.Length && !(start <= c <= start + size) ==> ram[c] == old(ram[c])
      ensures reply.Pid? ==> Filled(start, command, program.value)
    {
      hide GetColumn;
      ram[start + 1] := GetColumn(command, 2, " ");
      ram[start + 2] := GetColumn(command, 3, " ");
      ram[start + 3] := GetColumn(command, 4, " ");
      if program.None? {
        return NotOpened;
      }
      var fits := LoadLines(start, program.value);
      reply := if fits then Pid(0) else TooBig;
    }

    /** The block holds the arguments and the lines of the program. */
    ghost predicate Filled(start: int, command: string, lines: seq<string>)
      reads ram
    {
      && 0 <= start && start + size < ram.Length && size >= FIRST_INSTRUCTION && FIRST_INSTRUCTION + |lines| <= size
      && ram[start + 1] == GetColumn(command, 2, " ") && ram[start + 2] == GetColumn(command, 3, " ")
      && ram[start + 3] == GetColumn(command, 4, " ")
      && forall i :: 0 <= i < |lines| ==> ram[start + FIRST_INSTRUCTION + i] == lines[i]
    }

    /** The first cell of the block: the number, the first free cell behind the lines, the size. */
    ghost predicate Noted(start: int, pid: int, lines: seq<string>)
      reads ram
    {
      && 0 <= start < ram.Length
      && ram[start] == "PID " + PrintInt(pid) + " FREE " + PrintInt(|lines| + 13) + " " + PrintInt(size)
    }

    /** Writes the control block of a new process and the note in the first cell of its block. */
    method Register(slot: nat, start: int, command: string, priority: string, lines: seq<string>)
      requires slot < slots.Length && slots != ram && Filled(start, command, lines)
      modifies this`lastPid, slots, ram
      ensures lastPid == old(lastPid) + 1 && Filled(start, command, lines) && Noted(start, lastPid, lines)
      ensures forall c :: 0 <= c < ram.Length && c != start ==> ram[c] == old(ram[c])
      ensures forall i :: 0 <= i < slots.Length && i != slot ==> slots[i] == old(slots[i])
      ensures slots[slot] == NewPcb(lastPid, command, priority, start) && slots[slot] != "0"
              && StateOf(slots[slot]) == "ready"
      ensures IsWord(priority) ==> NewProcess(slots[slot], start)
    {
      hide GetColumn, StateOf, PrintInt, PcbText, HoldsBlock, FdsOk;
      var a0, a1, a3 := GetColumn(command, 1, " "), GetColumn(command, 2, " "), GetColumn(command, 4, " ");
      var name := a0 + "|" + a1 + "|" + a3;
      lastPid := lastPid + 1;
      ColumnHasNoBlank(command, 1);
      ColumnHasNoBlank(command, 2);
      ColumnHasNoBlank(command, 4);
      PrintIsWord(11);
      if IsWord(priority) {
        NewRecord(lastPid, name, priority, start, size, 11);
      }
      PcbIsUsed(lastPid, name, priority, start, start + size, PrintInt(11));
      StateIsSafe(lastPid, name, priority, start, start + size, PrintInt(11), "ready");
      slots[slot] := PcbText(lastPid, name, priority, start, start + size, PrintInt(11));
      ram[start] := Join(["PID", PrintInt(lastPid), "FREE", PrintInt(13 + |lines|), PrintInt(size)], " ");
      NoteText(PrintInt(lastPid), PrintInt(13 + |lines|), PrintInt(size));
    }

    /** The control block of a new process. Its name column holds the program and its first and
        third argument: the second is overwritten before it is used. */
    function NewPcb(pid: int, command: string, priority: string, start: int): string {
      PcbText(pid, GetColumn(command, 1, " ") + "|" + GetColumn(command, 2, " ") + "|" + GetColumn(command, 4, " "),
              priority, start, start + size, PrintInt(FIRST_INSTRUCTION - 1))
    }

    /** A load gives the process in `slot` a number that nobody else has: the number and the name can
        be read back, the number finds the slot, and the numbers stay apart. */
    ghost predicate GivesNumber(before: seq<string>, last: int, slot: nat, pid: int, command: string)
      reads slots
    {
      && slot < slots.Length && pid == last + 1 && GetColumn(slots[slot], 2, " ") == PrintInt(pid)
      && GetColumn(slots[slot], 4, " ") ==
           GetColumn(command, 1, " ") + "|" + GetColumn(command, 2, " ") + "|" + GetColumn(command, 4, " ")
      && (Numbered(before, last) && 0 <= last && InInt(pid) ==>
            Numbered(slots[..], pid) && FirstWithPid(slots[..], PrintInt(pid), 0) == slot)
    }

    lemma NumberIsGiven(before: seq<string>, last: int, slot: nat, command: string, priority: string, start: int)
      requires slot < |before| && before[slot] == "0" && slot == FirstFree(before, 0)
      requires current.Some? ==> current.value < |before|
      requires slots[..] == before[slot := NewPcb(last + 1, command, priority, start)]
      ensures GivesNumber(before, last, slot, last + 1, command)
      ensures T.Table(slots[..], current) == T.After(T.Table(before, current), T.Load(slots[slot]))
    {
      hide GetColumn, Numbered, PcbText, PrintInt, Carries;
      var a0, a1, a3 := GetColumn(command, 1, " "), GetColumn(command, 2, " "), GetColumn(command, 4, " ");
      var name, pcb := a0 + "|" + a1 + "|" + a3, NewPcb(last + 1, command, priority, start);
      ColumnHasNoBlank(command, 1);
      ColumnHasNoBlank(command, 2);
      ColumnHasNoBlank(command, 4);
      PrintIsWord(FIRST_INSTRUCTION - 1);
      NewCarries(last + 1, name, priority, start, start + size, PrintInt(FIRST_INSTRUCTION - 1));
      ReadsNumber(pcb, last + 1, name);
      if Numbered(before, last) && 0 <= last && InInt(last + 1) {
        LoadKeepsNumbers(before, last, slot, pcb, name);
      }
    }

    /** A ready process that starts at its first instruction. */
    ghost predicate NewProcess(pcb: string, start: int) {
      pcb != "0" && HoldsBlock(pcb, start, size) && FdsOk(pcb) && StateOf(pcb) == "ready"
        && GetColumn(pcb, PC, " ") == PrintInt(11)
    }

    /** The ghost side of a load: the allocated block goes to the slot, or is lost. */
    ghost method Book(slot: nat, succeeds: bool, word: bool)
      requires slots.Length >= 1 && slots != ram && slots != descriptors && ram != descriptors
               && InInt(descriptors.Length) && size >= FIRST_INSTRUCTION && 0 <= base
      requires current.Some? ==> current.value < slots.Length
      requires freeEnd < ram.Length && blocks.next <= ram.Length && InInt(ram.Length + size)
      requires P.Tiled(blocks, base, size) && P.Conserved(blocks, base, size)
      requires var a := P.Allocated(blocks, size, freeEnd);
               && a.0.Some? && freeList == P.ListText(a.1.pooled) && freeStart == a.1.next
               && (succeeds ==> slot < slots.Length && slots[slot] != "0")
               && (succeeds && word ==> HoldsBlock(slots[slot], a.0.value, size) && FdsOk(slots[slot]))
      requires slot !in blocks.live && forall i :: i in blocks.live ==> i < slots.Length
      requires forall i :: 0 <= i < slots.Length && !(succeeds && i == slot) ==> SlotOk(i)
      modifies this`blocks, this`sound
      ensures Valid() && blocks == P.Loaded(old(blocks), size, freeEnd, slot, succeeds)
      ensures sound == if succeeds && word then old(sound) + {slot} else old(sound) - {slot}
    {
      hide HoldsBlock, FdsOk, P.Conserved, P.Tiled, P.Allocated, P.Loaded, P.ListText;
      Accept(slot, succeeds);
      blocks := P.Loaded(blocks, size, freeEnd, slot, succeeds);
      sound := if succeeds && word then sound + {slot} else sound - {slot};
      forall i | 0 <= i < slots.Length
        ensures SlotOk(i)
      {
        assert i != slot || !succeeds ==> old(SlotOk(i));
      }
    }

    /** Loads a program: a slot, a block, the arguments, the lines, the control block. `program`
        is the text of the file, if it could be opened. A load that fails after the allocation
        does not give the block back. */
    method Load(command: string, priority: string, program: Option<seq<string>>) returns (reply: LoadReply)
      requires Valid()
      modifies this`freeList, this`freeStart, this`lastPid, this`blocks, this`sound, slots, ram
      ensures Valid()
      ensures var slot, a := FirstFree(old(slots[..]), 0), P.Allocated(old(blocks), size, freeEnd);
              && reply == Outcome(slot, a.0, program, old(lastPid) + 1)
              && (a.0.None? || slot == slots.Length ==> blocks == old(blocks) && ram[..] == old(ram[..]))
              && (a.0.Some? && slot < slots.Length ==>
                    && blocks == P.Loaded(old(blocks), size, freeEnd, slot, reply.Pid?)
                    && forall c :: 0 <= c < ram.Length && !(a.0.value <= c <= a.0.value + size) ==>
                         ram[c] == old(ram[c]))
              && (reply.Pid? ==>
                    && Filled(a.0.value, command, program.value) && Noted(a.0.value, reply.pid, program.value)
                    && slots[slot] == NewPcb(reply.pid, command, priority, a.0.value)
                    && StateOf(slots[slot]) == "ready" && (slot in sound <==> IsWord(priority))
                    && (slot in sound ==> NewProcess(slots[slot], a.0.value)))
              && sound - {slot} == old(sound) - {slot}
      ensures reply.NoSlot? <==> forall i :: 0 <= i < slots.Length ==> old(slots[i]) != "0"
      ensures reply.NoMemory? <==>
                && (exists i :: 0 <= i < slots.Length && old(slots[i]) == "0")
                && old(freeList) == "" && freeEnd < old(freeStart) + size
      ensures reply.NoSlot? ==> freeList == old(freeList) && freeStart == old(freeStart)
      ensures !reply.NoSlot? && !reply.NoMemory? ==>
                && (program.None? <==> reply.NotOpened?)
                && (reply.TooBig? <==> program.Some? && FIRST_INSTRUCTION + |program.value| > size)
                && (reply.Pid? ==> reply.pid == old(lastPid) + 1 && lastPid == reply.pid)
                && exists start :: Takes(old(freeList), old(freeStart), Some(start))
                                   && (reply.Pid? ==> Filled(start, command, program.value))
      ensures forall i :: 0 <= i < slots.Length && !(reply.Pid? && i == FirstFree(old(slots[..]), 0)) ==>
                slots[i] == old(slots[i])
      ensures reply.Pid? ==>
                GivesNumber(old(slots[..]), old(lastPid), FirstFree(old(slots[..]), 0), reply.pid, command)
      ensures reply.Pid? ==>
                T.Table(slots[..], current) ==
                  T.After(T.Table(old(slots[..]), current), T.Load(slots[FirstFree(old(slots[..]), 0)]))
    {
      hide HoldsBlock, FdsOk, StateOf, P.Conserved, P.Tiled, P.Allocated, P.Loaded, P.ListText, Filled, NewPcb, Noted,
        GivesNumber, T.After;
      assert forall i :: 0 <= i < slots.Length ==> SlotOk(i);
      var slot := FindFree();
      if slot == slots.Length {
        return NoSlot;
      }
      assert slot !in blocks.live by { assert SlotOk(slot); }
      AllocationFails();
      var block := Allocate();
      if block.None? {
        return NoMemory;
      }
      reply := Fill(block.value, command, program);
      if reply.Pid? {
        Register(slot, block.value, command, priority, program.value);
        NumberIsGiven(old(slots[..]), lastPid - 1, slot, command, priority, block.value);
        reply := Pid(lastPid);
      }
      forall i | 0 <= i < slots.Length && !(reply.Pid? && i == slot)
        ensures SlotOk(i)
      {
        assert old(SlotOk(i)) && slots[i] == old(slots[i]);
      }
      Book(slot, reply.Pid?, IsWord(priority));
    }

    /** What a load replies, given the free slot, the block and the program. */
    ghost function Outcome(slot: nat, block: Option<int>, program: Option<seq<string>>, pid: int): LoadReply {
      if slot >= slots.Length then NoSlot
      else if block.None? then NoMemory
      else if program.None? then NotOpened
      else if FIRST_INSTRUCTION + |program.value| > size then TooBig
      else Pid(pid)
    }

    lemma AllocationFails()
      ensures P.Allocated(blocks, size, freeEnd).0.None? ==> P.Allocated(blocks, size, freeEnd).1 == blocks
    {
    }

    /** The ghost side of a load: where the block goes. */
    lemma Accept(slot: nat, succeeds: bool)
      requires P.Tiled(blocks, base, size) && P.Conserved(blocks, base, size) && slot !in blocks.live
      requires P.Allocated(blocks, size, freeEnd).0.Some? && freeEnd < ram.Length && blocks.next <= ram.Length
      ensures var a, r := P.Allocated(blocks, size, freeEnd), P.Loaded(blocks, size, freeEnd, slot, succeeds);
              && P.Tiled(r, base, size) && P.Conserved(r, base, size) && r.next <= ram.Length
              && r.pooled == a.1.pooled && r.next == a.1.next
              && r.live == if succeeds then blocks.live[slot := a.0.value] else blocks.live
    {
      P.LoadKeepsTiling(blocks, base, size, freeEnd, slot, succeeds);
    }

    // ---- Cleaning ----

    /** Clears the cells from `start` up to, not including, `end`. */
    method ClearCells(start: int, end: int)
      requires 0 <= start < end <= ram.Length
      modifies ram
      ensures forall c :: 0 <= c < ram.Length ==> ram[c] == if start <= c < end then "" else old(ram[c])
    {
      var p := start;
      while true
        invariant start <= p < end
        invariant forall c :: 0 <= c < ram.Length ==> ram[c] == if start <= c < p then "" else old(ram[c])
        decreases end - p
      {
        ram[p] := "";
        p := p + 1;
        if p >= end {
          break;
        }
      }
    }

    /** The bounds in the control block of a live process. */
    lemma LiveBounds(slot: nat)
      requires Valid() && slot < slots.Length && slots[slot] != "0" && slot in sound
      ensures slot in blocks.live && 0 <= blocks.live[slot] && blocks.live[slot] + size < ram.Length
              && FdsOk(slots[slot])
      ensures Stoi(GetColumn(slots[slot], MEM_START, " ")) == Some(blocks.live[slot])
      ensures GetColumn(slots[slot], MEM_START, " ") == PrintInt(blocks.live[slot])
      ensures Stoi(GetColumn(slots[slot], MEM_END, " ")) == Some(blocks.live[slot] + size)
    {
      hide GetColumn, P.Conserved, P.Tiled, IsRecord, PrintInt, Stoi, FdsOk;
      assert SlotOk(slot);
      LiveInside(slot);
      StoiPrint(blocks.live[slot]);
      StoiPrint(blocks.live[slot] + size);
    }

    /** Closes the descriptors that a control block lists, column by column. */
    method CloseAll(pcb: string)
      requires FdsOk(pcb) && InInt(descriptors.Length)
      modifies descriptors
      ensures forall k :: 0 <= k < descriptors.Length ==> descriptors[k] == if Lists(pcb, k) then "0"
              else old(descriptors[k])
    {
      hide GetColumn, PrintInt, Stoi, Tokens;
      var c := FIRST_FD;
      var fd := GetColumn(pcb, c, " ");
      while fd != ""
        invariant c >= FIRST_FD && fd == GetColumn(pcb, c, " ")
        invariant forall k :: 0 <= k < descriptors.Length ==> descriptors[k] == if ListedBelow(pcb, k, c) then "0"
                  else old(descriptors[k])
        decreases |Tokens(pcb, " ")| + 1 - c
      {
        ColumnIsToken(pcb, c);
        assert IsFd(fd);
        ghost var k: nat :| InInt(k) && fd == PrintInt(k);
        StoiPrint(k);
        assert Stoi(fd) == Some(k);
        OneMoreListed(pcb, c, k);
        if Stoi(fd).value < descriptors.Length {
          descriptors[Stoi(fd).value] := "0";
        }
        c := c + 1;
        fd := GetColumn(pcb, c, " ");
      }
      AllListed(pcb, c);
    }

    /** The block at `start` is empty up to its last cell, and no other cell has changed. */
    ghost predicate Cleared(before: seq<string>, start: int)
      reads ram
    {
      && |before| == ram.Length
      && forall c :: 0 <= c < ram.Length ==> ram[c] == if start <= c < start + size then "" else before[c]
    }

    /** The descriptors that the control block lists are closed, and no others. */
    ghost predicate Closed(before: seq<string>, pcb: string)
      reads descriptors
    {
      && |before| == descriptors.Length
      && forall k :: 0 <= k < descriptors.Length ==> descriptors[k] == if Lists(pcb, k) then "0" else before[k]
    }

    /** Cleans the process of a slot: clears the cells of its block but the last one, closes its
        descriptors, frees the slot and pools the block. */
    method Clean(slot: nat)
      requires Valid() && slot < slots.Length && slots[slot] != "0" && slot in sound
      modifies this`freeList, this`blocks, slots, ram, descriptors
      ensures Valid() && blocks == P.Cleaned(old(blocks), slot)
      ensures slots[..] == old(slots[..])[slot := "0"]
      ensures slot in old(blocks).live && Cleared(old(ram[..]), old(blocks).live[slot])
      ensures freeList == PrintInt(old(blocks).live[slot]) + " " + old(freeList)
      ensures Closed(old(descriptors[..]), old(slots[slot]))
    {
      hide GetColumn, P.Conserved, P.Tiled, HoldsBlock, PrintInt, Stoi, FdsOk, Lists;
      LiveBounds(slot);
      var first, last := GetColumn(slots[slot], MEM_START, " "), GetColumn(slots[slot], MEM_END, " ");
      ClearCells(Stoi(first).value, Stoi(last).value);
      CloseAll(slots[slot]);
      freeList := P.Pushed(first, freeList);
      slots[slot] := "0";
      P.ListIsStack(blocks.live[slot], blocks.pooled);
      P.CleanKeepsTiling(blocks, base, size, slot);
      blocks := P.Cleaned(blocks, slot);
      forall i | 0 <= i < slots.Length
        ensures SlotOk(i)
      {
        assert old(SlotOk(i));
      }
    }

    /** Two live processes share no cell, and no process reaches below the process table's end
        or beyond the start of free memory. */
    lemma ProcessesAreSeparate(i: nat, j: nat)
      requires Valid() && i in blocks.live && j in blocks.live && i != j
      ensures base <= blocks.live[i] && blocks.live[i] + size < freeStart
      ensures blocks.live[i] + size < blocks.live[j] || blocks.live[j] + size < blocks.live[i]
    {
      hide P.Tiled, P.Conserved, HoldsBlock;
      P.BlocksAreDisjoint(blocks, base, size, P.Live(i), P.Live(j));
    }

    lemma LiveInside(slot: nat)
      requires Valid() && slot in blocks.live
      ensures 0 <= blocks.live[slot] && blocks.live[slot] + size < ram.Length && InInt(blocks.live[slot] + size)
    {
      assert P.At(blocks, P.Live(slot)) == Some(blocks.live[slot]);
    }

    /** Stops the current process: timer off, its block pooled, no bounds, no current slot. */
    method Stop()
      requires Valid() && current.Some? && slots[current.value] != "0" && current.value in sound
      modifies this`freeList, this`blocks, this`current, this`timer, this`procStart, this`procEnd, slots, ram,
          descriptors
      ensures Valid() && current == None && blocks == P.Cleaned(old(blocks), old(current).value)
      ensures slots[..] == old(slots[..])[old(current).value := "0"]
      ensures timer == "-1" && procStart == "" && procEnd == ""
      ensures old(current).value in old(blocks).live && Cleared(old(ram[..]), old(blocks).live[old(current).value])
      ensures Closed(old(descriptors[..]), old(slots[current.value]))
    {
      hide HoldsBlock, FdsOk, P.Tiled, P.Conserved;
      timer := "-1";
      Clean(current.value);
      procStart := "";
      procEnd := "";
      current := None;
    }

    /** Looks a process up by its number. */
    method FindPid(pid: string) returns (slot: nat)
      requires Valid()
      ensures slot == FirstWithPid(slots[..], pid, 0)
    {
      hide HoldsBlock, FdsOk, P.Tiled, P.Conserved, GetColumn;
      slot := 0;
      while slot < slots.Length && GetColumn(slots[slot], 2, " ") != pid
        invariant 0 <= slot <= slots.Length && FirstWithPid(slots[..], pid, slot) == FirstWithPid(slots[..], pid, 0)
      {
        slot := slot + 1;
      }
    }

    /** Kills the process with the given number, unless it is the caller. */
    method Kill(pid: string) returns (reply: KillReply)
      requires Valid() && pid != ""
      requires FirstWithPid(slots[..], pid, 0) < slots.Length ==> FirstWithPid(slots[..], pid, 0) in sound
      modifies this`freeList, this`blocks, slots, ram, descriptors
      ensures Valid()
      ensures var slot := FirstWithPid(old(slots[..]), pid, 0);
              && reply == (if slot == slots.Length then NoSuchPid else if current == Some(slot) then OwnPid else Killed)
              && blocks == (if reply.Killed? then P.Cleaned(old(blocks), slot) else old(blocks))
              && slots[..] == (if reply.Killed? then old(slots[..])[slot := "0"] else old(slots[..]))
              && (reply.Killed? ==> slot in old(blocks).live && Cleared(old(ram[..]), old(blocks).live[slot])
                                    && Closed(old(descriptors[..]), old(slots[..])[slot]))
              && (!reply.Killed? ==> ram[..] == old(ram[..]) && descriptors[..] == old(descriptors[..]))
              && T.Table(slots[..], current) == T.After(T.Table(old(slots[..]), current), T.Kill(slot))
    {
      hide HoldsBlock, FdsOk, P.Tiled, P.Conserved, GetColumn;
      var slot := FindPid(pid);
      if slot == slots.Length {
        return NoSuchPid;
      }
      if current == Some(slot) {
        return OwnPid;
      }
      FreeHasNoNumber();
      Clean(slot);
      reply := Killed;
    }
  }

  lemma NoteText(pid: string, free: string, size: string)
    ensures Join(["PID", pid, "FREE", free, size], " ") == "PID " + pid + " FREE " + free + " " + size
  {
    var ws := ["PID", pid, "FREE", free, size];
    assert ws[..4] == ["PID", pid, "FREE", free] && ws[..4][..3] == ["PID", pid, "FREE"];
    assert ws[..4][..3][..2] == ["PID", pid] && ["PID", pid][..1] == ["PID"];
    assert Join(["PID", pid], " ") == "PID " + pid;
    assert Join(["PID", pid, "FREE"], " ") == "PID " + pid + " FREE";
    assert Join(["PID", pid, "FREE", free], " ") == "PID " + pid + " FREE " + free;
  }

  lemma EntryWakes(pcb: string, live: bool, isSound: bool, start: int, size: nat)
    requires if live then pcb != "0" && (isSound ==> HoldsBlock(pcb, start, size) && FdsOk(pcb)) else pcb == "0"
    ensures if live then Woken(pcb) != "0" && (isSound ==> HoldsBlock(Woken(pcb), start, size) && FdsOk(Woken(pcb)))
            else Woken(pcb) == "0"
  {
    hide HoldsBlock, FdsOk, StateOf, ReplaceColumn;
    if live {
      ReplacedIsUsed(pcb, STATE, "ready");
      if isSound {
        WokenHolds(pcb, start, size);
      }
    } else {
      FreeHasNoState();
    }
  }

  lemma ColumnIsToken(s: string, c: int)
    ensures GetColumn(s, c, " ") != "" ==> c <= |Tokens(s, " ")|
  {
  }

  /** Descriptor k is in the list in front of column c. */
  ghost predicate ListedBelow(pcb: string, k: nat, c: int) {
    exists d: int :: FIRST_FD <= d < c && GetColumn(pcb, d, " ") == PrintInt(k)
  }

  lemma OneMoreListed(pcb: string, c: int, n: nat)
    requires c >= FIRST_FD && GetColumn(pcb, c, " ") == PrintInt(n) && InInt(n)
    ensures forall k: nat :: InInt(k) ==> (ListedBelow(pcb, k, c + 1) <==> ListedBelow(pcb, k, c) || k == n)
  {
    hide GetColumn, PrintInt;
    forall k: nat | InInt(k)
      ensures ListedBelow(pcb, k, c + 1) <==> ListedBelow(pcb, k, c) || k == n
    {
      if PrintInt(k) == PrintInt(n) {
        PrintInjective(k, n);
      }
    }
  }

  lemma AllListed(pcb: string, c: int)
    requires c >= FIRST_FD && GetColumn(pcb, c, " ") == ""
    ensures forall k: nat :: ListedBelow(pcb, k, c) <==> Lists(pcb, k)
  {
    hide PrintInt, Tokens;
    forall k: nat, d: int | d >= c
      ensures GetColumn(pcb, d, " ") != PrintInt(k)
    {
      TokenIsNotEmpty(pcb, c);
    }
  }

  lemma TokenIsNotEmpty(s: string, c: int)
    requires 1 <= c
    ensures GetColumn(s, c, " ") == "" ==> c > |Tokens(s, " ")|
  {
  }

  lemma NothingWakes(slots: seq<string>)
    requires forall i :: 0 <= i < |slots| ==> StateOf(slots[i]) != "pause"
    ensures WokenAll(slots) == slots
  {
    hide StateOf;
    assert forall i :: 0 <= i < |slots| ==> Woken(slots[i]) == slots[i];
  }
}
