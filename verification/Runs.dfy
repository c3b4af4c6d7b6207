/** Whole runs: the invariant, and what an idle process guarantees. */
module Runs {
  import opened Lists
  import opened Machine
  import opened Invariants
  import Frames
  import Scheduling
  import Processes
  import QueueCalls

  /** ok holds of every event of the run in the state it happens in. */
  predicate Along(s: State, es: seq<Event>, ok: (State, Event) -> bool)
    decreases |es|
  {
    es == [] || (ok(s, es[0]) && Along(Step(s, es[0]), es[1..], ok))
  }

  lemma PerformKeeps(s: State, c: Call)
    requires Inv(s) && s.running.Some? && Provided(s, c) && At(s, Cur(s)).call == Some(c)
    ensures Inv(Perform(s, c))
  {
    match c
    case Preempt => Scheduling.ScheduleKeeps(s);
    case Fork => Processes.ForkKeeps(s);
    case Sleep(cycles) => Processes.SleepKeeps(s, cycles);
    case Wait(pid, hasCell) => Processes.WaitKeeps(s, pid, hasCell);
    case Exit(value) => Processes.ExitKeeps(s, value);
    case Open(id, mode) => QueueCalls.OpenKeeps(s, id, mode);
    case Close(fd) => QueueCalls.CloseKeeps(s, fd);
    case Destroy(id) => QueueCalls.DestroyKeeps(s, id);
    case Write(id, data) => QueueCalls.WriteKeeps(s, id, data);
    case Read(id, room) => QueueCalls.ReadKeeps(s, id, room);
  }

  lemma StepKeeps(s: State, e: Event)
    requires Inv(s) && Defined(s, e)
    ensures Inv(Step(s, e))
  {
    match e
    case Interrupt => Scheduling.TickKeeps(s);
    case Trap(c) =>
      Frames.EnterKeeps(s, c);
      PerformKeeps(Enter(s, c), c);
  }

  /** Every state of every run has the invariant. */
  lemma {:induction false} RunKeeps(s: State, es: seq<Event>)
    requires Inv(s) && ValidRun(s, es)
    ensures Inv(Run(s, es))
    decreases |es|
  {
    if es != [] {
      StepKeeps(s, es[0]);
      RunKeeps(Step(s, es[0]), es[1..]);
    }
  }

  lemma {:induction false} RunAppend(s: State, es: seq<Event>, fs: seq<Event>)
    ensures Run(s, es + fs) == Run(Run(s, es), fs)
    ensures ValidRun(s, es + fs) <==> ValidRun(s, es) && ValidRun(Run(s, es), fs)
    decreases |es|
  {
    if es == [] {
      assert es + fs == fs;
    } else {
      assert (es + fs)[1..] == es[1..] + fs;
      RunAppend(Step(s, es[0]), es[1..], fs);
    }
  }

  lemma RunOne(s: State, e: Event)
    ensures Run(s, [e]) == Step(s, e) && (ValidRun(s, [e]) <==> Defined(s, e))
  { }

  lemma RunLast(s: State, es: seq<Event>)
    requires es != []
    ensures var n := |es| - 1; Run(s, es) == Step(Run(s, es[..n]), es[n])
  {
    var n := |es| - 1;
    assert es == es[..n] + [es[n]];
    RunAppend(s, es[..n], [es[n]]);
    RunOne(Run(s, es[..n]), es[n]);
  }

  lemma ValidLast(s: State, es: seq<Event>)
    requires es != []
    ensures var n := |es| - 1; ValidRun(s, es) <==> ValidRun(s, es[..n]) && Defined(Run(s, es[..n]), es[n])
  {
    var n := |es| - 1;
    assert es == es[..n] + [es[n]];
    RunAppend(s, es[..n], [es[n]]);
    RunOne(Run(s, es[..n]), es[n]);
  }
}
