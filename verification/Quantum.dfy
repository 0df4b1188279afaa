/** The quantum of a dispatched process: the timer that the dispatcher sets, counted from the
    dispatching return itself. */
module Quantum {
  import opened Wrappers
  import opened Text
  import opened Hardware
  import opened Isolation
  import opened Runs
  import opened Timer
  import opened Syscalls
  import opened Relocation
  import opened Preemption
  import opened ProcessSteps

  /** The machine behind the dispatching return, timer check included. */
  function Dispatching(m: Machine, slot: int, quantum: string, v: KernelVars): (r: Machine)
    requires Valid(m) && 0 <= slot < |m.cells| && VarsBelow(v, |m.cells|)
    ensures Valid(r)
  {
    TimerPhase(Dispatched(m, slot, quantum, v).m)
  }

  /** A suspended process that can be dispatched. */
  ghost predicate Dispatchable(m: Machine, u: Machine, p: Process, v: KernelVars, floor: int)
    ensures Dispatchable(m, u, p, v, floor) ==> Valid(m) && 0 <= p.slot < |m.cells| && VarsBelow(v, |m.cells|)
  {
    && Frozen(m, u, p) && Flagged(m) && EnergyOf(m).Some? && VarsBelow(v, floor) && floor <= p.lo && floor <= p.slot
    && HandlerAddress(m.cells[INTERRUPT_HANDLER]).Some?
  }

  /** The return is the first tick: it leaves q - 1 on the timer, or, with a quantum of zero, is
      interrupted at once. */
  lemma FirstTick(m: Machine, u: Machine, p: Process, q: nat, v: KernelVars, floor: int)
    requires Dispatchable(m, u, p, v, floor) && InInt(q)
    ensures var e := Dispatching(m, p.slot, PrintInt(q), v);
            && Dispatched(m, p.slot, PrintInt(q), v).m.cells[HW_TIMER] == PrintInt(q)
            && (q > 0 ==> Active(e, u, p) && e.cells[HW_TIMER] == PrintInt(q - 1))
            && (q == 0 ==>
                  e.kernel && e.status.Running? && exists n :: e.cells[INTERRUPT_DATA] == InterruptRecord("1", n, "1"))
  {
    hide PrintInt, Stoi, HandlerAddress, InterruptRecord, Dispatched, Frozen, Flagged, Active, Twins;
    ResumedActive(m, u, p, PrintInt(q), v, floor);
    StoiPrint(q);
    var core := Dispatched(m, p.slot, PrintInt(q), v).m;
    ActiveRuns(core, u, p);
    FrozenPrinted(m, u, p);
    if q == 0 {
      var n := Interrupted(core, u, p);
    } else {
      StillActive(core, u, p, PrintInt(q - 1));
    }
  }

  lemma StillActive(core: Machine, u: Machine, p: Process, t: string)
    requires Active(core, u, p)
    ensures Active(Put(core, HW_TIMER, t), u, p)
  {
    hide Twins, Named, Alone;
    LooseTimer(u, core, p, t);
  }

  /** In a run of user steps the timer is left alone. */
  lemma UserRunKeepsTimer(m: Machine, ins: seq<Inputs>)
    requires UserReady(m) && StaysUser(m, ins)
    ensures TimerUntouched(m, ins)
  {
    hide ProcStart, ProcEnd, KeepsTimer, StepNonNegative, State;
    forall k | 0 <= k < |ins|
      ensures KeepsTimer(State(m, ins, k), ins[k])
    {
      StateReady(m, ins, k);
      assert UserState(State(m, ins, k), ins[k]);
      UserKeepsTimer(State(m, ins, k), ins[k]);
    }
  }

  lemma StateReady(m: Machine, ins: seq<Inputs>, k: nat)
    requires UserReady(m) && StaysUser(m, ins) && k < |ins|
    ensures UserReady(State(m, ins, k))
  {
    hide StepNonNegative, StepConfined;
    assert UserState(State(m, ins, k), ins[k]);
    forall j | 0 <= j < k
      ensures UserState(State(m, ins[..k], j), ins[..k][j])
    {
      assert ins[..k][..j] == ins[..j];
      assert UserState(State(m, ins, j), ins[j]);
    }
    UserRunConfined(m, ins[..k]);
    StillReady(m, Run(m, ins[..k]), ProcStart(m), ProcEnd(m));
  }

  /** A process dispatched with quantum q is interrupted at tick q + 1, the dispatching return being
      tick 1, and not before; the interrupt enters the kernel. */
  lemma DispatchedForQuantum(m: Machine, u: Machine, p: Process, q: nat, v: KernelVars, floor: int, ins: seq<Inputs>)
    requires Dispatchable(m, u, p, v, floor) && InInt(q) && q > 0 && ins != []
    requires var e := Dispatching(m, p.slot, PrintInt(q), v);
             StaysUser(e, ins) && 1 + TickCount(e, ins[..|ins| - 1]) <= q
    ensures var e, before, last := Dispatching(m, p.slot, PrintInt(q), v), ins[..|ins| - 1], ins[|ins| - 1];
            && NeverFires(e, before)
            && (TimerFires(Run(e, before), last) <==> 1 + TickCount(e, ins) == q + 1)
            && (TimerFires(Run(e, before), last) && Run(e, ins).status.Running? ==> Run(e, ins).kernel)
  {
    hide PrintInt, Stoi, Dispatchable, Active, Dispatching, TimerFires, NeverFires, StaysUser, TimerUntouched,
      TickCount, Run;
    FirstTick(m, u, p, q, v, floor);
    var e := Dispatching(m, p.slot, PrintInt(q), v);
    assert UserReady(e) by { ActiveReady(e, u, p); }
    UserRunKeepsTimer(e, ins);
    assert InInt(q - 1);
    QuantumIsExact(e, ins, q - 1);
  }
}
