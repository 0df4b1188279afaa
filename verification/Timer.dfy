/** The time quantum: when exactly the timer interrupt fires. */
module Timer {
  import opened Text
  import opened Hardware
  import opened Isolation
  import opened Runs

  /** The step reaches the timer check in user mode. */
  predicate Ticks(m: Machine, input: Inputs)
    requires Valid(m)
  {
    && m.status.Running? && Fetch(m).signal.Done?
    && var instr := Decode(Fetch(m).value);
       !instr.DebugMark? && Core(m, instr, input).status.Running? && !Core(m, instr, input).kernel
  }

  predicate TimerFires(m: Machine, input: Inputs)
    requires Valid(m)
  {
    m.status.Running? && Fetch(m).signal.Done? && Fires(m, Decode(Fetch(m).value), input)
  }

  /** The instruction of this step leaves the timer cell alone. */
  predicate KeepsTimer(m: Machine, input: Inputs)
    requires Valid(m)
  {
    m.status.Running? && Fetch(m).signal.Done? ==>
      Core(m, Decode(Fetch(m).value), input).cells[HW_TIMER] == m.cells[HW_TIMER]
  }

  /** User instructions never write the timer. */
  lemma UserKeepsTimer(m: Machine, input: Inputs)
    requires UserReady(m) && StepNonNegative(m, input)
    ensures KeepsTimer(m, input)
  {
    hide Core, Decode, Fetch, Advance;
    if Fetch(m).signal.Done? {
      assert Ready(m, input) == Poll(Advance(m), input);
      UserCore(m, Decode(Fetch(m).value), input, ProcStart(m), ProcEnd(m));
    }
  }

  function TickCount(m: Machine, ins: seq<Inputs>): (n: nat)
    requires Valid(m)
    ensures n <= |ins|
  {
    if ins == [] then 0
    else
      var s := Run(m, ins[..|ins| - 1]);
      TickCount(m, ins[..|ins| - 1]) + if Ticks(s, ins[|ins| - 1]) then 1 else 0
  }

  lemma AdvanceKeepsTimer(m: Machine)
    requires Valid(m)
    ensures Advance(m).cells[HW_TIMER] == m.cells[HW_TIMER]
  {
  }

  /** One step against the timer: it counts down on a tick, fires on a tick at zero, and is
      otherwise left alone. */
  lemma TimerStep(m: Machine, input: Inputs, t: nat)
    requires Valid(m) && InInt(t) && m.cells[HW_TIMER] == PrintInt(t) && KeepsTimer(m, input)
    ensures TimerFires(m, input) <==> Ticks(m, input) && t == 0
    ensures !TimerFires(m, input) ==>
              Step(m, input).cells[HW_TIMER] == PrintInt(if Ticks(m, input) then t - 1 else t)
    ensures TimerFires(m, input) ==> (Step(m, input).status.Running? ==> Step(m, input).kernel)
  {
    hide Core, Decode, Fetch, Advance;
    StoiPrint(t);
    AdvanceKeepsTimer(m);
  }

  ghost predicate TimerUntouched(m: Machine, ins: seq<Inputs>)
    requires Valid(m)
  {
    forall k :: 0 <= k < |ins| ==> KeepsTimer(State(m, ins, k), ins[k])
  }

  ghost predicate NeverFires(m: Machine, ins: seq<Inputs>)
    requires Valid(m)
  {
    forall k :: 0 <= k < |ins| ==> !TimerFires(State(m, ins, k), ins[k])
  }

  lemma UntouchedPrefix(m: Machine, ins: seq<Inputs>)
    requires Valid(m) && ins != [] && TimerUntouched(m, ins)
    ensures TimerUntouched(m, ins[..|ins| - 1])
    ensures KeepsTimer(Run(m, ins[..|ins| - 1]), ins[|ins| - 1])
  {
    hide KeepsTimer, State;
    var n := |ins| - 1;
    forall k | 0 <= k < n
      ensures KeepsTimer(State(m, ins[..n], k), ins[..n][k])
    {
      StatePrefix(m, ins, ins[..n], k);
      assert KeepsTimer(State(m, ins, k), ins[k]);
    }
    assert KeepsTimer(State(m, ins, n), ins[n]);
    assert State(m, ins, n) == Run(m, ins[..n]) by { StateIsRun(m, ins, ins[..n]); }
  }

  lemma NeverFiresExtend(m: Machine, ins: seq<Inputs>)
    requires Valid(m) && ins != [] && NeverFires(m, ins[..|ins| - 1])
    requires !TimerFires(Run(m, ins[..|ins| - 1]), ins[|ins| - 1])
    ensures NeverFires(m, ins)
  {
    hide TimerFires, State;
    var n := |ins| - 1;
    forall k | 0 <= k < |ins|
      ensures !TimerFires(State(m, ins, k), ins[k])
    {
      if k < n {
        StatePrefix(m, ins, ins[..n], k);
        assert !TimerFires(State(m, ins[..n], k), ins[..n][k]);
      } else {
        StateIsRun(m, ins, ins[..n]);
      }
    }
  }

  lemma RunSnoc(m: Machine, ins: seq<Inputs>)
    requires Valid(m) && ins != []
    ensures var s, last := Run(m, ins[..|ins| - 1]), ins[|ins| - 1];
            && Run(m, ins) == Step(s, last)
            && TickCount(m, ins) == TickCount(m, ins[..|ins| - 1]) + if Ticks(s, last) then 1 else 0
  {
    hide Ticks, Step;
  }

  lemma CountStep(s: Machine, input: Inputs, q: nat, count: nat, last: Machine, total: nat)
    requires Valid(s) && InInt(q) && count <= q && s.cells[HW_TIMER] == PrintInt(q - count) && KeepsTimer(s, input)
    requires last == Step(s, input) && total == count + (if Ticks(s, input) then 1 else 0) && total <= q
    ensures last.cells[HW_TIMER] == PrintInt(q - total) && !TimerFires(s, input)
  {
    hide TimerFires, KeepsTimer, Ticks, Step, PrintInt;
    TimerStep(s, input, q - count);
  }

  lemma NothingCounted(m: Machine)
    requires Valid(m)
    ensures TickCount(m, []) == 0 && Run(m, []) == m && NeverFires(m, [])
  {
    hide TimerFires;
  }

  /** With the timer set to q, the first q ticks of any run count down, whatever mix of user and
      kernel steps lies between them. */
  lemma {:induction false} TimerCountsDown(m: Machine, ins: seq<Inputs>, q: nat)
    requires Valid(m) && InInt(q) && m.cells[HW_TIMER] == PrintInt(q) && TimerUntouched(m, ins)
    ensures TickCount(m, ins) <= q ==> Run(m, ins).cells[HW_TIMER] == PrintInt(q - TickCount(m, ins))
    ensures TickCount(m, ins) <= q ==> NeverFires(m, ins)
  {
    hide TimerFires, KeepsTimer, Ticks, Step, State, NeverFires, TimerUntouched, PrintInt, InInt, Run, TickCount;
    if ins == [] {
      NothingCounted(m);
    } else {
      var before, last := ins[..|ins| - 1], ins[|ins| - 1];
      UntouchedPrefix(m, ins);
      RunSnoc(m, ins);
      TimerCountsDown(m, before, q);
      if TickCount(m, ins) <= q {
        CountStep(Run(m, before), last, q, TickCount(m, before), Run(m, ins), TickCount(m, ins));
        NeverFiresExtend(m, ins);
      }
    }
  }

  /** Exact quantum: from the dispatch with timer q, the interrupt fires at precisely the
      (q+1)-th tick of the run and at no earlier step, and that step ends in kernel mode. */
  lemma QuantumIsExact(m: Machine, ins: seq<Inputs>, q: nat)
    requires Valid(m) && InInt(q) && m.cells[HW_TIMER] == PrintInt(q)
    requires |ins| > 0 && TimerUntouched(m, ins)
    requires TickCount(m, ins[..|ins| - 1]) <= q
    ensures var last, input := Run(m, ins[..|ins| - 1]), ins[|ins| - 1];
            && NeverFires(m, ins[..|ins| - 1])
            && (TimerFires(last, input) <==> TickCount(m, ins) == q + 1)
            && (TimerFires(last, input) && Run(m, ins).status.Running? ==> Run(m, ins).kernel)
  {
    hide TimerFires, KeepsTimer, Ticks, Step, State, NeverFires, TimerUntouched, PrintInt, InInt, Run, TickCount;
    var before, last := ins[..|ins| - 1], ins[|ins| - 1];
    UntouchedPrefix(m, ins);
    RunSnoc(m, ins);
    TimerCountsDown(m, before, q);
    assert InInt(q - TickCount(m, before)) by { Smaller(q, TickCount(m, before)); }
    TimerStep(Run(m, before), last, q - TickCount(m, before));
  }

  lemma Smaller(q: nat, n: nat)
    requires InInt(q) && n <= q
    ensures InInt(q - n)
  {
  }
}
