/** Waking processes and passing the processor on: internal_schedule and what the queue calls do to sleepers. */
module Scheduling {
  import opened Lists
  import opened Machine
  import opened Invariants
  import Frames

  // ----- processes move from the waiting to the ready list

  /** t is s after the waiting processes ps became ready, at either end of the ready list. */
  ghost predicate Woken(s: State, t: State, ps: seq<Pid>) {
    && t.waiting == Without(s.waiting, ps)
    && (t.ready == ps + s.ready || t.ready == s.ready + ps)
    && t.running == s.running && t.zombie == s.zombie && t.lastPid == s.lastPid && t.pcbFree == s.pcbFree
    && t.procs.Keys == s.procs.Keys
    && forall p :: p in s.procs ==>
         && t.procs[p].status == (if p in ps then Ready else s.procs[p].status)
         && (s.procs[p].hasTimer || !t.procs[p].hasTimer)
         && t.procs[p].call == s.procs[p].call
         && t.procs[p].parent == s.procs[p].parent && t.procs[p].children == s.procs[p].children
         && t.procs[p].lastFd == s.procs[p].lastFd && t.procs[p].descriptors == s.procs[p].descriptors
  }

  lemma WokenPlaces(s: State, t: State, ps: seq<Pid>)
    requires Places(s) && Woken(s, t, ps)
    requires NoDup(ps) && forall p :: p in ps ==> p in s.waiting
    ensures Places(t)
  {
    forall p | p in ps
      ensures !Active(s, p)
    { }
    WithoutNoDup(s.waiting, ps);
    NoDupAppend(ps, s.ready);
    NoDupAppend(s.ready, ps);
    assert forall p :: Active(t, p) <==> Active(s, p) || p in ps;
    assert |t.procs| == |t.procs.Keys| == |s.procs.Keys| == |s.procs|;
  }

  lemma WokenFamily(s: State, t: State, ps: seq<Pid>)
    requires Family(s) && Woken(s, t, ps)
    requires forall p :: p in ps ==> p in s.procs && s.procs[p].status != Zombie
    ensures Family(t)
  {
    Frames.FamilyFrame(s, t);
  }

  lemma WokenCalls(s: State, t: State, ps: seq<Pid>)
    requires Woken(s, t, ps)
    ensures forall p :: At(t, p).call == At(s, p).call
    ensures forall p :: p in t.waiting <==> p in s.waiting && p !in ps
    ensures Reasons(s) ==> Reasons(t)
  { }

  // ----- internal_schedule

  /** The timers that are due belong to distinct waiting sleepers and to distinct blocks. */
  lemma DueTimers(s: State)
    requires Places(s) && Sleepers(s)
    ensures var n := Due(s.timers, s.time); var ps, bs := TimerPids(s.timers[..n]), TimerBlocks(s.timers[..n]);
      && NoDup(ps) && NoDup(bs)
      && (forall p :: p in ps ==> p in s.waiting && Asleep(s, p) && !Dead(s, p))
      && (forall b :: b in bs ==> s.timerPool.Out(b))
  { }

  lemma WakeSleepersWoken(s: State)
    ensures Woken(s, WakeSleepers(s), TimerPids(s.timers[..Due(s.timers, s.time)]))
  { }

  lemma WakeSleepersPool(s: State)
    requires Sleepers(s)
    ensures TimerPoolOk(WakeSleepers(s).timerPool, WakeSleepers(s).timers)
  {
    var n := Due(s.timers, s.time);
    var bs := TimerBlocks(s.timers[..n]);
    Frames.PutAllBack(s.timerPool, bs);
    var later := s.timers[n..];
    forall i | 0 <= i < |later|
      ensures later[i].block !in bs && s.timerPool.Out(later[i].block)
    {
      assert later[i] == s.timers[n + i];
    }
  }

  /** A timer is due if and only if its process is among the woken. */
  lemma DueOrLater(s: State)
    requires Sleepers(s)
    ensures var n := Due(s.timers, s.time);
      forall i :: 0 <= i < |s.timers| ==> (s.timers[i].pid in TimerPids(s.timers[..n]) <==> i < n)
  { }

  lemma WakeSleepersTimers(s: State)
    requires Sleepers(s)
    ensures Sleepers(WakeSleepers(s))
  {
    WakeSleepersPool(s);
    LaterTimers(s);
    LaterSleepers(s);
  }

  lemma LaterTimers(s: State)
    requires Sleepers(s)
    ensures TimersOrdered(WakeSleepers(s).timers)
  { }

  lemma LaterSleepers(s: State)
    requires Sleepers(s)
    ensures TimersOfSleepers(WakeSleepers(s))
  {
    DueOrLater(s);
    WakeSleepersCalls(s);
    StillTimed(s);
  }

  lemma WakeSleepersCalls(s: State)
    ensures var ps, t := TimerPids(s.timers[..Due(s.timers, s.time)]), WakeSleepers(s);
      && (forall p :: At(t, p).call == At(s, p).call)
      && (forall p :: p in t.waiting <==> p in s.waiting && p !in ps)
  { }

  /** A sleeper that is not woken still has its timer. */
  lemma StillTimed(s: State)
    requires Sleepers(s)
    ensures var n := Due(s.timers, s.time);
      forall p :: p in s.waiting && Asleep(s, p) && p !in TimerPids(s.timers[..n]) ==> HasTimer(WakeSleepers(s), p)
  { }

  lemma WakeSleepersQueues(s: State)
    requires Places(s) && Sleepers(s) && QueuesOk(s)
    ensures QueuesOk(WakeSleepers(s))
  {
    DueTimers(s);
    WakeSleepersWoken(s);
    WokenCalls(s, WakeSleepers(s), TimerPids(s.timers[..Due(s.timers, s.time)]));
    Frames.QueuesFrame(s, WakeSleepers(s));
  }

  lemma WakeSleepersKeeps(s: State)
    requires Inv(s)
    ensures Inv(WakeSleepers(s))
  {
    var t := WakeSleepers(s);
    var ps := TimerPids(s.timers[..Due(s.timers, s.time)]);
    DueTimers(s);
    WakeSleepersWoken(s);
    WokenPlaces(s, t, ps);
    WokenCalls(s, t, ps);
    WakeSleepersTimers(s);
    WakeSleepersQueues(s);
    WokenFamily(s, t, ps);
    Frames.HandlesFrame(s, t);
  }

  lemma StepBackKeeps(s: State)
    requires Inv(s) && s.running.Some?
    ensures Inv(StepBack(s))
  {
    var t := StepBack(s);
    Frames.HeadAlive(s);
    StepBackPlaces(s);
    Frames.SleepersFrame(s, t);
    Frames.QueuesFrame(s, t);
    StepBackTables(s);
  }

  lemma StepBackTables(s: State)
    requires s.running.Some? && !Dead(s, Cur(s)) && Family(s) && Handles(s)
    ensures Family(StepBack(s)) && Handles(StepBack(s))
  {
    var t := StepBack(s);
    assert t.procs.Keys == s.procs.Keys;
    Frames.FamilyFrame(s, t);
    Frames.HandlesFrame(s, t);
  }

  lemma StepBackPlaces(s: State)
    requires Places(s) && s.running.Some?
    ensures Places(StepBack(s)) && StepBack(s).procs.Keys == s.procs.Keys
  { }

  lemma RotateKeeps(s: State)
    requires Inv(s) && s.running.Some?
    ensures Inv(Rotate(s))
  {
    if s.ready != [] {
      StepBackKeeps(s);
      Frames.DispatchKeeps(StepBack(s), true);
    }
  }

  lemma ScheduleKeeps(s: State)
    requires Inv(s) && s.running.Some?
    ensures Inv(Schedule(s))
  {
    WakeSleepersKeeps(s);
    RotateKeeps(WakeSleepers(s));
  }

  lemma TickKeeps(s: State)
    requires Inv(s) && s.running.Some?
    ensures Inv(Tick(s))
  {
    ClockKeeps(s);
    ScheduleKeeps(Clock(s));
  }

  lemma ClockKeeps(s: State)
    requires Inv(s)
    ensures Inv(Clock(s))
  {
    var t := Clock(s);
    assert forall p :: Active(t, p) <==> Active(s, p);
    Frames.SleepersFrame(s, t);
    Frames.QueuesFrame(s, t);
    Frames.FamilyFrame(s, t);
    Frames.HandlesFrame(s, t);
  }
}
