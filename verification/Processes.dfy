/** All processes together: one machine, a table of processes with disjoint blocks, and any run of
    user steps, system calls, timer interrupts, exits, loads and scheduling decisions. Every process
    goes through the states of its own uninterrupted run, from its start to its end. */
module Processes {
  import opened Wrappers
  import opened Text
  import opened Columns
  import opened Hardware
  import opened Isolation
  import opened Syscalls
  import opened Relocation
  import opened Preemption
  import opened ProcessSteps
  import Pcb
  import R = Ring
  import P = Pool

  // ---- The table ----

  /** The processes by slot, and the slots in use. */
  datatype Table = Table(procs: seq<Process>, live: set<nat>)

  /** Slot i is cell i of the list that starts at cell `list`; blocks of live processes are
      disjoint and lie behind the list. */
  ghost predicate Arranged(t: Table, list: int) {
    && |t.procs| > 0 && HW_TIMER < list && (forall i :: i in t.live ==> i < |t.procs|)
    && (forall i :: 0 <= i < |t.procs| ==> t.procs[i].slot == list + i)
    && (forall i, j :: i in t.live && j in t.live && i != j ==> Apart(t.procs[i], t.procs[j]))
    && (forall i :: i in t.live ==> list + |t.procs| <= t.procs[i].lo)
  }

  /** The blocks that the allocator hands out are apart and lie behind the table. */
  lemma AllocatedApart(b: P.Blocks, base: int, size: nat, i: nat, j: nat, slot: int, slot2: int)
    requires P.Tiled(b, base, size) && i in b.live && j in b.live && i != j
    ensures Apart(Process(b.live[i], size, slot), Process(b.live[j], size, slot2)) && base <= b.live[i]
  {
    hide P.Tiled;
    P.BlocksAreDisjoint(b, base, size, P.Live(i), P.Live(j));
  }

  /** The kernel: its list of control blocks, and its variables below it. */
  datatype Kernel = Kernel(list: int, vars: KernelVars)

  /** The shared machine, the uninterrupted runs, and the table. */
  datatype World = World(s: Sys, us: seq<Machine>, t: Table)

  ghost predicate OneFollows(s: Sys, u: Machine, p: Process, i: nat) {
    if s.running && s.current == Some(i) then Active(s.m, u, p) else Frozen(s.m, u, p)
  }

  predicate InBounds(w: World, g: Kernel) {
    && Valid(w.s.m) && VarsBelow(g.vars, g.list) && g.list + |w.t.procs| <= |w.s.m.cells| && |w.us| == |w.t.procs|
    && (w.s.current.Some? ==> w.s.current.value < |w.us|)
    && (w.s.running ==> w.s.current.Some? && Valid(w.us[w.s.current.value]))
  }

  /** Each live process is in the state of its uninterrupted run, running or suspended. */
  ghost predicate Follows(w: World, g: Kernel) {
    && Arranged(w.t, g.list) && InBounds(w, g) && w.s.m.status.Running?
    && (w.s.running ==> w.s.current.value in w.t.live) && (!w.s.running ==> w.s.m.kernel && Flagged(w.s.m))
    && (forall i :: i in w.t.live ==> OneFollows(w.s, w.us[i], w.t.procs[i], i))
    && (forall i :: 0 <= i < |w.t.procs| && i !in w.t.live ==> w.s.m.cells[g.list + i] == "0")
  }

  // ---- Turns ----

  /** A user step of the running process; a system call of it, with the machine that the kernel
      returns from; its exit, by a call or a fault, with the machine behind the kernel's cleaning;
      or a scheduling decision, with the machine as the kernel's work left it. The kernel may load
      and end other processes meanwhile, which gives the next table. */
  datatype Turn =
    | Own(input: Inputs)
    | Call(input: Inputs, served: Machine, back: Inputs, next: Table)
    | Exit(input: Inputs, left: Machine, next: Table)
    | Switch(scratch: Machine, next: Table, quantum: string)

  /** The uninterrupted runs when the kernel has changed the table: those of new processes begin. */
  function Begun(us: seq<Machine>, m: Machine, t: Table, next: Table): (r: seq<Machine>)
    requires Valid(m)
    ensures |r| == |us|
  {
    seq(|us|, i requires 0 <= i < |us| =>
      if i in next.live && i !in t.live && i < |next.procs|
        && CanStart(m, next.procs[i]) then AloneFrom(m, next.procs[i])
      else us[i])
  }

  predicate CanStart(m: Machine, p: Process) {
    && Valid(m) && HW_TIMER < p.lo && USER_SPACE_END < p.len && p.lo + p.len <= Size(m) && InInt(Size(m))
    && HW_TIMER < p.slot < |m.cells| && !(p.lo <= p.slot <= p.lo + p.len)
  }

  /** The slots as the scheduler leaves them, and the slot it chooses. */
  function Decision(m: Machine, current: Option<nat>, list: int, n: nat): (r: (Machine, Option<nat>))
    requires Valid(m) && 0 <= list && 0 < n && list + n <= |m.cells| && (current.Some? ==> current.value < n)
    ensures |r.0.cells| == |m.cells| && (r.1.Some? ==> r.1.value < n)
  {
    var d := R.SelectNext(m.cells[list..][..n], current);
    (m.(cells := m.cells[..list] + d.0 + m.cells[list..][n..]), d.1)
  }

  /** The chosen process runs, or, if none is ready, the kernel is idle. */
  function Chosen(m: Machine, choice: Option<nat>, g: Kernel, quantum: string): Sys
    requires Valid(m) && VarsBelow(g.vars, g.list) && g.list <= |m.cells|
             && (choice.Some? ==> g.list + choice.value < |m.cells|)
  {
    match choice
    case None => Sys(m, None, false)
    case Some(k) => Settled(TimerPhase(Dispatched(m, g.list + k, quantum, g.vars).m), k, g.list + k, g.vars)
  }

  /** What the answer to a call looks like to the program. */
  function Answer(u: Machine, input: Inputs, served: Machine, back: Inputs): Machine
    requires Valid(u) && Valid(served)
  {
    Answered(u, input, Ready(served, back).cells[REG_RES], Ready(served, back).cells[REG_ERROR])
  }

  /** The world after a turn: the shared machine, and the uninterrupted runs one step on. */
  function Next(w: World, g: Kernel, turn: Turn): World {
    if !InBounds(w, g) then w
    else
      match turn
      case Own(input) =>
        if !w.s.running then w
        else
          var k := w.s.current.value;
          World(Settled(Step(w.s.m, input), k, g.list + k, g.vars), w.us[k := Step(w.us[k], input)], w.t)
      case Call(input, served, back, next) =>
        if !w.s.running || !Valid(served) then w
        else
          var k := w.s.current.value;
          World(Settled(Step(served, back), k, g.list + k, g.vars),
                Begun(w.us, served, w.t, next)[k := Answer(w.us[k], input, served, back)], next)
      case Exit(_, left, next) =>
        if !Valid(left) then w else World(Sys(left, None, false), Begun(w.us, left, w.t, next), next)
      case Switch(scratch, next, quantum) =>
        if !Valid(scratch) || |scratch.cells| != |w.s.m.cells| || w.us == [] then w
        else
          var d := Decision(scratch, w.s.current, g.list, |w.us|);
          World(Chosen(d.0, d.1, g, quantum), Begun(w.us, scratch, w.t, next), next)
  }

  // ---- Which turns can happen ----

  /** A loaded process: its block is in memory, its control block names it and its start. */
  ghost predicate Loaded(m: Machine, p: Process) {
    && CanStart(m, p) && Named(m.cells[p.slot], p) && m.status.Running?
    && exists n: int :: StartsAt(m.cells[p.slot], n)
  }

  ghost predicate StartsAt(pcb: string, n: int) {
    InInt(n) && GetColumn(pcb, R.PC, " ") == PrintInt(n)
  }

  /** Process i of the table is left alone, up to the control block of the process that is served. */
  ghost predicate LeftAlone(m: Machine, r: Machine, p: Process, served: bool) {
    && |r.cells| == |m.cells|
    && (forall c :: p.lo <= c <= p.lo + p.len && 0 <= c < |m.cells| ==> r.cells[c] == m.cells[c])
    && (!served && 0 <= p.slot < |m.cells| ==> r.cells[p.slot] == m.cells[p.slot])
  }

  /** What the kernel does to the table: processes that stay are left alone, new ones are loaded
      into blocks of their own, and the slots of the others are free. */
  ghost predicate Serviced(m: Machine, r: Machine, t: Table, next: Table, list: int, self: Option<nat>) {
    && Valid(r) && |r.cells| == |m.cells| && r.kernel && r.status.Running?
    && Arranged(next, list) && |next.procs| == |t.procs| && list + |t.procs| <= |m.cells|
    && (forall i :: i in next.live && i in t.live ==>
          next.procs[i] == t.procs[i] && LeftAlone(m, r, t.procs[i], self == Some(i)))
    && (forall i :: i in next.live && i !in t.live ==> Loaded(r, next.procs[i]))
    && (forall i :: 0 <= i < |t.procs| && i !in next.live ==> r.cells[list + i] == "0")
  }

  /** The caller keeps its bounds, its record and its place in the table. */
  ghost predicate CallerKept(m: Machine, r: Machine, next: Table, k: nat)
    requires Valid(m) && Valid(r)
  {
    && (forall c :: c in {PROC_START, PROC_END, INTERRUPT_DATA} ==> r.cells[c] == m.cells[c])
    && k in next.live && k < |next.procs| && 0 <= next.procs[k].slot < |r.cells|
    && Named(r.cells[next.procs[k].slot], next.procs[k])
  }

  ghost predicate Legal(w: World, g: Kernel, turn: Turn)
    requires InBounds(w, g)
  {
    && HandlersSet(w.s.m) && EnergyReadable(w.s.m)
    && match turn
       case Own(input) => w.s.running && Quiet(w.us[w.s.current.value], input) && EnergyReadable(Step(w.s.m, input))
       case Call(input, served, back, next) =>
         && w.s.running && Calling(w.us[w.s.current.value], input)
         && Serviced(Step(w.s.m, input), served, w.t, next, g.list, w.s.current)
         && CallerKept(Step(w.s.m, input), served, next, w.s.current.value)
         && HandlersSet(served) && NextIs(served, back, OP_SYSRETURN) && EnergyReadable(Step(served, back))
       case Exit(input, left, next) =>
         && w.s.running && Leaves(w.s.m, input) && Serviced(Step(w.s.m, input), left, w.t, next, g.list, None)
         && w.s.current.value !in next.live
         && left.cells[INTERRUPT_DATA] == ReplaceColumn(Step(w.s.m, input).cells[INTERRUPT_DATA], 3, " ", "1")
       case Switch(scratch, next, quantum) =>
         && !w.s.running && Serviced(w.s.m, scratch, w.t, next, g.list, None)
         && scratch.cells[INTERRUPT_DATA] == w.s.m.cells[INTERRUPT_DATA] && HandlersSet(scratch)
         && EnergyReadable(scratch)
         && var d := Decision(scratch, w.s.current, g.list, |w.us|);
            d.1.Some? ==> EnergyReadable(Dispatched(d.0, g.list + d.1.value, quantum, g.vars).m)
  }

  /** A control block that the loader writes for a priority of one word makes a process start. */
  lemma NewRecordStarts(m: Machine, p: Process, pid: int, name: string, priority: string, pc: int)
    requires CanStart(m, p) && m.status.Running? && IsWord(name) && IsWord(priority) && InInt(pc)
    requires m.cells[p.slot] == Pcb.PcbText(pid, name, priority, p.lo, p.lo + p.len, PrintInt(pc))
    ensures Loaded(m, p)
  {
    hide GetColumn, Pcb.PcbText, PrintInt, R.IsRecord;
    Pcb.NewRecord(pid, name, priority, p.lo, p.len, pc);
    assert StartsAt(m.cells[p.slot], pc);
  }

  // ---- Everything but one process ----

  /** Everything but the process in slot k: suspended processes and free slots. */
  ghost predicate Rest(m: Machine, us: seq<Machine>, t: Table, list: int, k: nat) {
    && Arranged(t, list) && |us| == |t.procs| && k < |t.procs| && Valid(m) && list + |t.procs| <= |m.cells|
    && m.status.Running?
    && (forall i :: i in t.live && i != k ==> Frozen(m, us[i], t.procs[i]))
    && (forall i :: 0 <= i < |t.procs| && i !in t.live ==> m.cells[list + i] == "0")
  }

  lemma RestOf(w: World, g: Kernel)
    requires Follows(w, g) && w.s.running
    ensures var k := w.s.current.value;
            Rest(w.s.m, w.us, w.t, g.list, k) && Active(w.s.m, w.us[k], w.t.procs[k]) && k in w.t.live
              && k < |w.t.procs| && g.list <= w.t.procs[k].lo
  {
    hide Active, Frozen, Flagged;
    var k := w.s.current.value;
    assert OneFollows(w.s, w.us[k], w.t.procs[k], k);
    forall i | i in w.t.live && i != k
      ensures Frozen(w.s.m, w.us[i], w.t.procs[i])
    {
      assert OneFollows(w.s, w.us[i], w.t.procs[i], i);
    }
  }

  /** What a process changes keeps the rest. */
  lemma RestOutside(m: Machine, r: Machine, us: seq<Machine>, t: Table, list: int, k: nat)
    requires Rest(m, us, t, list, k) && k in t.live && KeepsOutside(m, r, t.procs[k], list) && r.status.Running?
    ensures Rest(r, us, t, list, k)
  {
    hide Frozen, KeepsOutside;
    SameSize(m, r, t.procs[k], list);
    forall i | i in t.live && i != k
      ensures Frozen(r, us[i], t.procs[i])
    {
      assert t.procs[i].slot == list + i && t.procs[k].slot == list + k;
      FrozenOutside(m, r, us[i], t.procs[k], t.procs[i], list);
    }
    forall i | 0 <= i < |t.procs| && i !in t.live
      ensures r.cells[list + i] == "0"
    {
      assert t.procs[i].slot == list + i && t.procs[k].slot == list + k;
      SlotKept(m, r, t.procs[k], list + i, list);
    }
  }

  /** The rest and the process in slot k make up the whole. */
  lemma Closes(m: Machine, r: Sys, vs: seq<Machine>, t: Table, g: Kernel, k: nat)
    requires Rest(m, vs, t, g.list, k) && k in t.live && SettledWell(m, r, vs[k], t.procs[k], k, g.list)
             && VarsBelow(g.vars, g.list)
    ensures Follows(World(r, vs, t), g)
  {
    hide Active, Frozen, Flagged, KeepsOutside;
    RestOutside(m, r.m, vs, t, g.list, k);
    RunValid(r, vs[k], t.procs[k], k);
    forall i | i in t.live
      ensures OneFollows(r, vs[i], t.procs[i], i)
    {
    }
  }

  lemma RunValid(r: Sys, u: Machine, p: Process, k: nat)
    requires if r.running then Active(r.m, u, p) else Frozen(r.m, u, p)
    ensures Valid(u)
  {
  }

  lemma RestSame(m: Machine, us: seq<Machine>, vs: seq<Machine>, t: Table, list: int, k: nat)
    requires Rest(m, us, t, list, k) && |vs| == |us| && forall i :: 0 <= i < |us| && i != k ==> vs[i] == us[i]
    ensures Rest(m, vs, t, list, k)
  {
    hide Frozen;
  }

  /** Everything is suspended. */
  ghost predicate AllFrozen(m: Machine, us: seq<Machine>, t: Table, list: int) {
    && Arranged(t, list) && |us| == |t.procs| && Valid(m) && list + |t.procs| <= |m.cells| && m.status.Running?
    && (forall i :: i in t.live ==> Frozen(m, us[i], t.procs[i]))
    && (forall i :: 0 <= i < |t.procs| && i !in t.live ==> m.cells[list + i] == "0")
  }

  lemma AllOf(w: World, g: Kernel)
    requires Follows(w, g) && !w.s.running
    ensures AllFrozen(w.s.m, w.us, w.t, g.list) && Flagged(w.s.m)
  {
    hide Frozen, Flagged;
    forall i | i in w.t.live
      ensures Frozen(w.s.m, w.us[i], w.t.procs[i])
    {
      assert OneFollows(w.s, w.us[i], w.t.procs[i], i);
    }
  }

  lemma AllButOne(m: Machine, us: seq<Machine>, t: Table, list: int, k: nat)
    requires AllFrozen(m, us, t, list) && k in t.live
    ensures Rest(m, us, t, list, k) && Frozen(m, us[k], t.procs[k])
  {
    hide Frozen;
  }

  lemma AllFollow(m: Machine, us: seq<Machine>, t: Table, g: Kernel, current: Option<nat>)
    requires AllFrozen(m, us, t, g.list) && VarsBelow(g.vars, g.list) && Flagged(m) && m.kernel
             && (current.Some? ==> current.value < |us|)
    ensures Follows(World(Sys(m, current, false), us, t), g)
  {
    hide Frozen, Flagged;
  }

  // ---- What the kernel does to the table ----

  /** A process that stays is still suspended, and a new one starts suspended. */
  lemma OneServiced(m: Machine, r: Machine, us: seq<Machine>, t: Table, next: Table, list: int, self: Option<nat>,
                    i: nat)
    requires Serviced(m, r, t, next, list, self) && i in next.live && self != Some(i) && |us| == |t.procs|
    requires i in t.live ==> i < |t.procs| && Frozen(m, us[i], t.procs[i])
    ensures Frozen(r, Begun(us, r, t, next)[i], next.procs[i])
  {
    hide Frozen, Named;
    var p := next.procs[i];
    if i in t.live {
      FrozenBounds(m, us[i], p);
      FrozenKept(m, r, us[i], p);
    } else {
      assert Loaded(r, p);
      var n :| StartsAt(r.cells[p.slot], n);
      SuspendedHasRun(r, p, n);
    }
  }

  lemma AllServiced(m: Machine, r: Machine, us: seq<Machine>, t: Table, next: Table, list: int)
    requires AllFrozen(m, us, t, list) && Serviced(m, r, t, next, list, None)
    ensures AllFrozen(r, Begun(us, r, t, next), next, list)
  {
    hide Frozen, Begun, LeftAlone, Loaded;
    forall i | i in next.live
      ensures Frozen(r, Begun(us, r, t, next)[i], next.procs[i])
    {
      OneServiced(m, r, us, t, next, list, None, i);
    }
  }

  /** When the process in slot k is gone, everything is suspended. */
  lemma RestGone(m: Machine, r: Machine, us: seq<Machine>, t: Table, next: Table, list: int, k: nat)
    requires Rest(m, us, t, list, k) && Serviced(m, r, t, next, list, None) && k !in next.live
    ensures AllFrozen(r, Begun(us, r, t, next), next, list)
  {
    hide Frozen, Begun, LeftAlone, Loaded;
    forall i | i in next.live
      ensures Frozen(r, Begun(us, r, t, next)[i], next.procs[i])
    {
      OneServiced(m, r, us, t, next, list, None, i);
    }
  }

  /** The kernel's service keeps the caller and leaves the rest a rest. */
  lemma RestServed(m: Machine, r: Machine, us: seq<Machine>, t: Table, next: Table, list: int, k: nat)
    requires Rest(m, us, t, list, k) && k in t.live && Serviced(m, r, t, next, list, Some(k))
             && CallerKept(m, r, next, k)
    ensures Rest(r, Begun(us, r, t, next), next, list, k) && next.procs[k] == t.procs[k]
    ensures ServedCaller(m, r, t.procs[k]) && k in next.live
  {
    hide Frozen, Begun, Loaded, Named;
    forall i | i in next.live && i != k
      ensures Frozen(r, Begun(us, r, t, next)[i], next.procs[i])
    {
      OneServiced(m, r, us, t, next, list, Some(k), i);
    }
  }

  // ---- Turns of the running process ----

  /** The turn of an own step. */
  lemma OwnTurn(w: World, g: Kernel, input: Inputs)
    requires Follows(w, g) && Legal(w, g, Own(input))
    ensures Follows(Next(w, g, Own(input)), g)
  {
    hide Active, Frozen, Flagged, KeepsOutside, Quiet, Step, Core, Fetch, Decode, EnergyReadable, HandlerAddress,
      TimerPhase, ContextSaved, ProcStart, PcPrinted, Stoi, Settled, SettledWell, Rest;
    var m, k := w.s.m, w.s.current.value;
    var p, u := w.t.procs[k], w.us[k];
    RestOf(w, g);
    OwnCore(m, u, p, input, g.list);
    StepTicks(m, Core(m, Decode(Fetch(m).value), input), Step(m, input), Step(u, input), p, g.vars, g.list);
    var vs := w.us[k := Step(u, input)];
    RestSame(m, w.us, vs, w.t, g.list, k);
    assert p.slot == g.list + k;
    assert SettledWell(m, Settled(Step(m, input), k, p.slot, g.vars), Step(u, input), p, k, g.list);
    Closes(m, Settled(Step(m, input), k, p.slot, g.vars), vs, w.t, g, k);
  }

  /** The turn of a system call. */
  lemma CallTurn(w: World, g: Kernel, input: Inputs, served: Machine, back: Inputs, next: Table)
    requires Follows(w, g) && Legal(w, g, Call(input, served, back, next))
    ensures Follows(Next(w, g, Call(input, served, back, next)), g)
  {
    hide Active, Frozen, Flagged, KeepsOutside, Calling, Step, Core, EnergyReadable, HandlerAddress, TimerPhase,
      ContextSaved, NextIs, Answered, ProcStart, PcPrinted, Stoi, Settled, SettledWell, Rest, Serviced, CallerKept,
      ServedCaller, Ready, Begun;
    var m, k := w.s.m, w.s.current.value;
    var p, u := w.t.procs[k], w.us[k];
    RestOf(w, g);
    CallOutside(m, u, p, input, g.list);
    RestOutside(m, Step(m, input), w.us, w.t, g.list, k);
    RestServed(Step(m, input), served, w.us, w.t, next, g.list, k);
    CallCore(m, u, p, input, served, back, g.list);
    ServedIsValid(Step(m, input), served, p);
    var v := Answer(u, input, served, back);
    StepTicks(served, Core(served, Exec, back), Step(served, back), v, p, g.vars, g.list);
    var us := Begun(w.us, served, w.t, next);
    RestSame(served, us, us[k := v], next, g.list, k);
    assert p.slot == g.list + k;
    assert SettledWell(served, Settled(Step(served, back), k, p.slot, g.vars), v, p, k, g.list);
    Closes(served, Settled(Step(served, back), k, p.slot, g.vars), us[k := v], next, g, k);
  }

  /** The turn of an exit. */
  lemma ExitTurn(w: World, g: Kernel, input: Inputs, left: Machine, next: Table)
    requires Follows(w, g) && Legal(w, g, Exit(input, left, next))
    ensures Follows(Next(w, g, Exit(input, left, next)), g)
  {
    hide Active, Frozen, Flagged, KeepsOutside, Leaves, Entered, Step, ReplaceColumn, Serviced, Rest, AllFrozen,
      Begun, EnergyReadable, HandlerAddress;
    var m, k := w.s.m, w.s.current.value;
    RestOf(w, g);
    LeavingStep(m, w.us[k], w.t.procs[k], input, g.list);
    RestOutside(m, Step(m, input), w.us, w.t, g.list, k);
    RestGone(Step(m, input), left, w.us, w.t, next, g.list, k);
    ServicedRuns(Step(m, input), left, w.t, next, g.list, None);
    ExitFlags(Step(m, input), left);
    AllFollow(left, Begun(w.us, left, w.t, next), next, g, None);
  }

  lemma ServicedRuns(m: Machine, r: Machine, t: Table, next: Table, list: int, self: Option<nat>)
    requires Serviced(m, r, t, next, list, self)
    ensures Valid(r) && r.kernel && r.status.Running? && |r.cells| == |m.cells| && |next.procs| == |t.procs|
  {
  }

  // ---- Scheduling decisions ----

  /** Every slot is left as it is or woken. */
  lemma SlotsAfter(slots: seq<string>, current: Option<nat>, i: nat)
    requires (current.Some? ==> current.value < |slots|) && i < |slots|
    ensures R.SelectNext(slots, current).0[i] in {slots[i], R.Woken(slots[i])}
  {
    hide R.StateOf, R.Woken;
  }

  /** The decision leaves every cell as it is, up to slots that it wakes. */
  lemma DecisionCells(m: Machine, current: Option<nat>, list: int, n: nat)
    requires Valid(m) && 0 <= list && 0 < n && list + n <= |m.cells| && (current.Some? ==> current.value < n)
    ensures var r := Decision(m, current, list, n).0;
            forall c :: 0 <= c < |m.cells| ==>
              r.cells[c] == m.cells[c] || (list <= c < list + n && r.cells[c] == R.Woken(m.cells[c]))
  {
    hide R.Woken, R.SelectNext;
    var slots := m.cells[list..][..n];
    var d := R.SelectNext(slots, current).0;
    var r := Decision(m, current, list, n).0;
    forall c | 0 <= c < |m.cells|
      ensures r.cells[c] == m.cells[c] || (list <= c < list + n && r.cells[c] == R.Woken(m.cells[c]))
    {
      if list <= c < list + n {
        SlotsAfter(slots, current, c - list);
        assert r.cells[c] == d[c - list];
      }
    }
  }

  lemma DecisionMode(m: Machine, current: Option<nat>, list: int, n: nat)
    requires Valid(m) && 0 <= list && 0 < n && list + n <= |m.cells| && (current.Some? ==> current.value < n)
    ensures var r := Decision(m, current, list, n).0;
            r.kernel == m.kernel && r.status == m.status && |r.cells| == |m.cells|
  {
    hide R.SelectNext;
  }

  /** The decision chooses a live process, if it chooses one. */
  lemma DecisionChooses(m: Machine, current: Option<nat>, us: seq<Machine>, t: Table, list: int)
    requires AllFrozen(m, us, t, list) && (current.Some? ==> current.value < |us|)
    ensures var d := Decision(m, current, list, |us|); d.1.Some? ==> d.1.value in t.live
  {
    hide Frozen, R.StateOf, R.Woken, R.SelectNext;
    var n := |us|;
    var slots := m.cells[list..][..n];
    assert forall i :: 0 <= i < n ==> slots[i] == m.cells[list + i];
    forall i | 0 <= i < n
      ensures R.IsSlot(slots[i])
    {
      if i in t.live {
        assert t.procs[i].slot == list + i;
        FrozenSlot(m, us[i], t.procs[i]);
      }
    }
    R.SelectionIsLive(slots, current);
    R.FreeHasNoState();
    if R.SelectNext(slots, current).1.Some? {
      SlotsAfter(slots, current, R.SelectNext(slots, current).1.value);
    }
  }

  /** Waking slots keeps every process suspended. */
  lemma WokenFrozen(m: Machine, r: Machine, us: seq<Machine>, t: Table, list: int)
    requires AllFrozen(m, us, t, list) && Valid(r) && |r.cells| == |m.cells| && r.status.Running?
    requires forall c :: 0 <= c < |m.cells| ==>
               r.cells[c] == m.cells[c] || (list <= c < list + |us| && r.cells[c] == R.Woken(m.cells[c]))
    ensures AllFrozen(r, us, t, list)
  {
    hide Frozen, R.Woken;
    forall i | i in t.live
      ensures Frozen(r, us[i], t.procs[i])
    {
      var p := t.procs[i];
      assert p.slot == list + i;
      FrozenBounds(m, us[i], p);
      forall c | p.lo <= c <= p.lo + p.len
        ensures r.cells[c] == m.cells[c]
      {
        BlockOffList(t, list, i, c);
      }
      FrozenWoken(m, r, us[i], p);
    }
    R.FreeHasNoState();
  }

  lemma BlockOffList(t: Table, list: int, i: nat, c: int)
    requires Arranged(t, list) && i in t.live && t.procs[i].lo <= c <= t.procs[i].lo + t.procs[i].len
    ensures !(list <= c < list + |t.procs|)
  {
  }

  /** The decision keeps every process suspended, and the record, the energy and the handlers. */
  lemma DecisionFrozen(m: Machine, current: Option<nat>, us: seq<Machine>, t: Table, list: int)
    requires AllFrozen(m, us, t, list) && Flagged(m) && (current.Some? ==> current.value < |us|)
    ensures var d := Decision(m, current, list, |us|);
            && (d.1.Some? ==> d.1.value in t.live) && AllFrozen(d.0, us, t, list) && Flagged(d.0)
            && d.0.kernel == m.kernel
            && forall c :: c in {SYS_ENERGY, INTERRUPT_HANDLER, SYSCALL_HANDLER} ==> d.0.cells[c] == m.cells[c]
  {
    hide Frozen, Flagged, R.StateOf, R.Woken, R.SelectNext, Decision;
    DecisionChooses(m, current, us, t, list);
    DecisionCells(m, current, list, |us|);
    DecisionMode(m, current, list, |us|);
    var r := Decision(m, current, list, |us|).0;
    WokenFrozen(m, r, us, t, list);
    FlaggedSame(m, r);
  }

  /** The dispatch of a suspended process. */
  lemma Resumes(m: Machine, us: seq<Machine>, t: Table, g: Kernel, k: nat, quantum: string)
    requires AllFrozen(m, us, t, g.list) && Flagged(m) && k in t.live && HandlersSet(m) && EnergyReadable(m)
    requires VarsBelow(g.vars, g.list) && g.list + k < |m.cells|
    requires EnergyReadable(Dispatched(m, g.list + k, quantum, g.vars).m)
    ensures Follows(World(Chosen(m, Some(k), g, quantum), us, t), g)
  {
    hide Active, Frozen, Flagged, KeepsOutside, EnergyReadable, HandlerAddress, TimerPhase, ContextSaved, Dispatched,
      PcPrinted, ProcStart, Settled, SettledWell, Rest, AllFrozen;
    AllButOne(m, us, t, g.list, k);
    TableOf(m, us, t, g.list, k);
    var p, u := t.procs[k], us[k];
    assert EnergyOf(m).Some? by { EnergyIsThere(m); }
    ResumedActive(m, u, p, quantum, g.vars, g.list);
    FrozenPrinted(m, u, p);
    FrozenRuns(m, u, p);
    var core := Dispatched(m, p.slot, quantum, g.vars).m;
    DispatchOutside(m, core, p, g.list);
    ActiveRuns(core, u, p);
    TimerEnergy(core, u, p);
    StepTicks(m, core, TimerPhase(core), u, p, g.vars, g.list);
    assert SettledWell(m, Settled(TimerPhase(core), k, p.slot, g.vars), u, p, k, g.list);
    Closes(m, Settled(TimerPhase(core), k, p.slot, g.vars), us, t, g, k);
  }

  lemma EnergyIsThere(m: Machine)
    requires Valid(m) && EnergyReadable(m)
    ensures EnergyOf(m).Some?
  {
  }

  lemma TableOf(m: Machine, us: seq<Machine>, t: Table, list: int, k: nat)
    requires AllFrozen(m, us, t, list) && k in t.live
    ensures k < |t.procs| == |us| && t.procs[k].slot == list + k && list <= t.procs[k].lo && 0 <= list
            && list + |us| <= |m.cells| && Valid(m)
  {
  }

  /** The turn of a scheduling decision. */
  lemma SwitchTurn(w: World, g: Kernel, scratch: Machine, next: Table, quantum: string)
    requires Follows(w, g) && Legal(w, g, Switch(scratch, next, quantum))
    ensures Follows(Next(w, g, Switch(scratch, next, quantum)), g)
  {
    hide Active, Frozen, Flagged, EnergyReadable, HandlerAddress, Decision, AllFrozen, Begun, Serviced, Chosen;
    AllOf(w, g);
    ServicedRuns(w.s.m, scratch, w.t, next, g.list, None);
    AllServiced(w.s.m, scratch, w.us, w.t, next, g.list);
    FlaggedSame(w.s.m, scratch);
    var us := Begun(w.us, scratch, w.t, next);
    DecisionFrozen(scratch, w.s.current, us, next, g.list);
    var d := Decision(scratch, w.s.current, g.list, |us|);
    if d.1.Some? {
      EnergySame(scratch, d.0);
      Resumes(d.0, us, next, g, d.1.value, quantum);
    } else {
      NoneChosen(d.0, g, quantum);
      AllFollow(d.0, us, next, g, None);
    }
  }

  lemma NoneChosen(m: Machine, g: Kernel, quantum: string)
    requires Valid(m) && VarsBelow(g.vars, g.list) && g.list <= |m.cells|
    ensures Chosen(m, None, g, quantum) == Sys(m, None, false)
  {
  }

  // ---- All runs ----

  lemma TurnFollows(w: World, g: Kernel, turn: Turn)
    requires Follows(w, g) && Legal(w, g, turn)
    ensures Follows(Next(w, g, turn), g)
  {
    hide Follows, Legal, Next;
    match turn
    case Own(input) => OwnTurn(w, g, input);
    case Call(input, served, back, next) => CallTurn(w, g, input, served, back, next);
    case Exit(input, left, next) => ExitTurn(w, g, input, left, next);
    case Switch(scratch, next, quantum) => SwitchTurn(w, g, scratch, next, quantum);
  }

  function Played(w: World, g: Kernel, turns: seq<Turn>): World
    decreases |turns|
  {
    if turns == [] then w else Played(Next(w, g, turns[0]), g, turns[1..])
  }

  ghost predicate Playable(w: World, g: Kernel, turns: seq<Turn>)
    decreases |turns|
  {
    turns != [] ==> InBounds(w, g) && Legal(w, g, turns[0]) && Playable(Next(w, g, turns[0]), g, turns[1..])
  }

  /** What following means in cells. A running process: its registers (but REG_F and LAST_KEY), PC
      and block. A suspended one: the same, with the registers in its block and the PC in its
      control block. */
  ghost predicate SeenIn(w: World, i: nat) {
    && i < |w.us| && i < |w.t.procs|
    && var m, u, p := w.s.m, w.us[i], w.t.procs[i];
       && Placed(m, p) && |u.cells| > p.lo + p.len && Valid(u)
       && (forall j :: p.lo <= j <= p.lo + p.len && !(p.lo < j <= p.lo + USER_SPACE_END) ==> m.cells[j] == u.cells[j])
       && (if w.s.running && w.s.current == Some(i) then
             && !m.kernel && m.cells[PROGRAM_COUNTER] == u.cells[PROGRAM_COUNTER]
             && forall r :: SavedRegister(r) ==> m.cells[r] == u.cells[r]
           else
             && GetColumn(m.cells[p.slot], R.PC, " ") == u.cells[PROGRAM_COUNTER]
             && forall r :: SavedRegister(r) ==> m.cells[p.lo + r] == u.cells[r])
  }

  lemma FollowingIsSeen(w: World, g: Kernel, i: nat)
    requires Follows(w, g) && i in w.t.live
    ensures SeenIn(w, i)
  {
    hide Flagged, GetColumn, Named, Twins;
    assert OneFollows(w.s, w.us[i], w.t.procs[i], i);
    var m, u, p := w.s.m, w.us[i], w.t.procs[i];
    if w.s.running && w.s.current == Some(i) {
      RunningView(m, u, p);
    }
  }

  /** Along every run in which each turn can happen, every live process is at all times in the
      state of its own uninterrupted run, running or suspended: its registers, its program counter
      and its block are those of that run. */
  lemma {:induction false} EveryProcessFollows(w: World, g: Kernel, turns: seq<Turn>)
    requires Follows(w, g) && Playable(w, g, turns)
    ensures var r := Played(w, g, turns);
            Follows(r, g) && forall i :: i in r.t.live ==> SeenIn(r, i)
    decreases |turns|
  {
    hide Legal, Follows, SeenIn;
    if turns == [] {
      forall i | i in w.t.live
        ensures SeenIn(w, i)
      {
        FollowingIsSeen(w, g, i);
      }
    } else {
      TurnFollows(w, g, turns[0]);
      EveryProcessFollows(Next(w, g, turns[0]), g, turns[1..]);
    }
  }
}
