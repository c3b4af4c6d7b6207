/** Time and sleepers over whole runs: the clock counts the interrupts, and a sleeper is woken by the interrupt it asked for. */
module Sleeping {
  import opened Machine
  import opened Invariants
  import opened Outcomes
  import Answers
  import Dispatching
  import Frames
  import Runs

  /** How many events of the run are timer interrupts. */
  function Interrupts(es: seq<Event>): nat {
    if es == [] then 0 else Ticks(es[0]) + Interrupts(es[1..])
  }

  function Ticks(e: Event): nat {
    if e.Interrupt? then 1 else 0
  }

  // ----- the clock

  lemma ClockStep(s: State, e: Event)
    requires Inv(s) && Defined(s, e)
    ensures Step(s, e).time == s.time + Ticks(e)
  {
    StepEnds(s, e);
    if e.Trap? && (e.call.Open? || e.call.Close? || e.call.Destroy?) {
      EndsAtOnce(s, e.call, Step(s, e));
    }
  }

  lemma {:induction false} ClockCounts(s: State, es: seq<Event>)
    requires Inv(s) && ValidRun(s, es)
    ensures Run(s, es).time == s.time + Interrupts(es)
    decreases |es|
  {
    if es != [] {
      ClockStep(s, es[0]);
      Runs.StepKeeps(s, es[0]);
      ClockCounts(Step(s, es[0]), es[1..]);
    }
  }

  /** After any run from the start the time is the number of interrupts there were. */
  lemma TimeIsInterrupts(es: seq<Event>)
    requires ValidRun(Boot(), es)
    ensures Run(Boot(), es).time == Interrupts(es)
  {
    BootInv();
    ClockCounts(Boot(), es);
  }

  // ----- sleepers

  /** p sleeps, and its timer is set to w. */
  ghost predicate SleepsUntil(s: State, p: Pid, w: int) {
    p in s.waiting && Asleep(s, p) && exists x :: x in s.timers && x.pid == p && x.time == w
  }

  /** What is known of a sleeper that keeps it asleep. */
  ghost predicate Undisturbed(s: State, p: Pid) {
    && s.running.Some? && p in s.procs && p != Cur(s) && s.procs[p].status == Waiting
    && forall id :: id in s.queues ==> p !in s.queues[id].readers && p !in s.queues[id].writers
  }

  lemma SleeperUndisturbed(s: State, p: Pid, w: int)
    requires Inv(s) && s.running.Some? && SleepsUntil(s, p, w)
    ensures Undisturbed(s, p)
  {
    Frames.HeadAlive(s);
    forall id | id in s.queues
      ensures p !in s.queues[id].readers && p !in s.queues[id].writers
    {
      assert QueueOk(s, id, s.queues[id]);
    }
  }

  lemma ScheduleAlarm(s: State, t: State, e: Event, p: Pid, w: int)
    requires ScheduleEnds(s, t, e) && SleepsUntil(s, p, w) && TimersOrdered(s.timers) && Undisturbed(s, p)
    ensures if w <= t.time then Active(t, p) && p !in t.waiting else SleepsUntil(t, p, w)
  {
    var n := Due(s.timers, t.time);
    var i :| 0 <= i < |s.timers| && s.timers[i].pid == p && s.timers[i].time == w;
    if i < n {
      assert TimerPids(s.timers[..n])[i] == p;
      assert p in [Cur(t)] + t.ready;
    } else {
      assert s.timers[n..][i - n] == s.timers[i];
    }
  }

  lemma OtherAlarm(s: State, t: State, c: Call, p: Pid, w: int)
    requires CallEnds(s, t, c) && !c.Preempt? && SleepsUntil(s, p, w) && Undisturbed(s, p)
    ensures SleepsUntil(t, p, w)
  {
    var x :| x in s.timers && x.pid == p && x.time == w;
    if c.Open? || c.Close? || c.Destroy? {
      EndsAtOnce(s, c, t);
    } else if c.Sleep? {
      var k :| 0 <= k <= |s.timers| && |t.timers| == |s.timers| + 1 && t.timers == s.timers[..k] + [t.timers[k]] + s.timers[k..];
      assert s.timers == s.timers[..k] + s.timers[k..];
      assert x in t.timers;
    } else {
      assert x in t.timers;
    }
  }

  lemma AlarmStep(s: State, e: Event, p: Pid, w: int)
    requires Inv(s) && Defined(s, e) && SleepsUntil(s, p, w)
    ensures var t := Step(s, e);
      if Dispatching.Schedules(e) && w <= t.time then Active(t, p) && p !in t.waiting else SleepsUntil(t, p, w)
  {
    SleeperUndisturbed(s, p, w);
    StepEnds(s, e);
    if Dispatching.Schedules(e) {
      ScheduleAlarm(s, Step(s, e), e, p, w);
    } else {
      OtherAlarm(s, Step(s, e), e.call, p, w);
    }
  }

  lemma FallsAsleep(s: State, c: int)
    requires Inv(s) && Defined(s, Trap(Sleep(c)))
    ensures SleepsUntil(Step(s, Trap(Sleep(c))), Cur(s), s.time + c)
    ensures At(Step(s, Trap(Sleep(c))), Cur(s)).ret == Me(s).ret
  {
    SleepOutcome(s, c);
    Frames.HeadAlive(s);
    AlarmSet(s, Step(s, Trap(Sleep(c))), c);
  }

  lemma AlarmSet(s: State, t: State, c: int)
    requires SleepEnds(s, t, c) && s.running.Some? && Cur(s) in s.procs
    ensures SleepsUntil(t, Cur(s), s.time + c) && At(t, Cur(s)).ret == Me(s).ret
  { }

  // ----- runs

  /** No schedule of the run is the one to wake a sleeper of c cycles: all have fewer than c interrupts up to them. */
  predicate NotYet(es: seq<Event>, c: int) {
    forall k {:trigger es[..k]} :: 0 < k <= |es| && Dispatching.Schedules(es[k - 1]) ==> Interrupts(es[..k]) < c
  }

  /** p waits in every state of the run. */
  ghost predicate Dozes(s: State, es: seq<Event>, p: Pid) {
    forall k :: 0 <= k <= |es| ==> p in Run(s, es[..k]).waiting
  }

  lemma NotYetFirst(es: seq<Event>, c: int)
    requires es != []
    ensures NotYet(es, c) <==>
              (Dispatching.Schedules(es[0]) ==> Ticks(es[0]) < c) && NotYet(es[1..], c - Ticks(es[0]))
  {
    assert es[..1] == [es[0]] && Interrupts(es[..1]) == Ticks(es[0]);
    forall k | 0 <= k <= |es[1..]|
      ensures es[..k + 1][1..] == es[1..][..k] && Interrupts(es[..k + 1]) == Ticks(es[0]) + Interrupts(es[1..][..k])
    {
      assert es[..k + 1][0] == es[0] && es[..k + 1][1..] == es[1..][..k];
    }
    if NotYet(es, c) {
      forall k | 0 < k <= |es[1..]| && Dispatching.Schedules(es[1..][k - 1])
        ensures Interrupts(es[1..][..k]) < c - Ticks(es[0])
      {
        assert es[..k + 1][1..] == es[1..][..k] && es[k] == es[1..][k - 1];
      }
    }
    if (Dispatching.Schedules(es[0]) ==> Ticks(es[0]) < c) && NotYet(es[1..], c - Ticks(es[0])) {
      forall k | 0 < k <= |es| && Dispatching.Schedules(es[k - 1])
        ensures Interrupts(es[..k]) < c
      {
        if k > 1 {
          assert es[..k][1..] == es[1..][..k - 1] && es[1..][k - 2] == es[k - 1];
        }
      }
    }
  }

  lemma DozesFirst(s: State, es: seq<Event>, p: Pid)
    requires es != []
    ensures Dozes(s, es, p) <==> p in s.waiting && Dozes(Step(s, es[0]), es[1..], p)
  {
    forall k | 0 <= k <= |es[1..]|
      ensures Run(s, es[..k + 1]) == Run(Step(s, es[0]), es[1..][..k])
    {
      assert es[..k + 1][0] == es[0] && es[..k + 1][1..] == es[1..][..k];
    }
    if p in s.waiting && Dozes(Step(s, es[0]), es[1..], p) {
      forall k | 0 <= k <= |es|
        ensures p in Run(s, es[..k]).waiting
      {
        if k > 0 {
          assert p in Run(Step(s, es[0]), es[1..][..k - 1]).waiting;
        }
      }
    }
    if Dozes(s, es, p) {
      assert Run(s, es[..0]) == s;
      forall k | 0 <= k <= |es[1..]|
        ensures p in Run(Step(s, es[0]), es[1..][..k]).waiting
      {
        assert p in Run(s, es[..k + 1]).waiting;
      }
    }
  }

  /** Whoever sleeps until w is waiting all along exactly as long as no schedule comes at w or later. */
  lemma {:induction false} DozesUntil(s: State, es: seq<Event>, p: Pid, w: int)
    requires Inv(s) && ValidRun(s, es) && SleepsUntil(s, p, w)
    ensures Dozes(s, es, p) <==> NotYet(es, w - s.time)
    decreases |es|
  {
    if es != [] {
      var t := Step(s, es[0]);
      NotYetFirst(es, w - s.time);
      DozesFirst(s, es, p);
      AlarmStep(s, es[0], p, w);
      ClockStep(s, es[0]);
      Runs.StepKeeps(s, es[0]);
      if SleepsUntil(t, p, w) {
        DozesUntil(t, es[1..], p, w);
      } else {
        assert Run(t, es[1..][..0]) == t;
      }
    }
  }

  /** A process that calls sleep for c cycles is from then on waiting all along, in any run, exactly as long as every schedule has
      fewer than c interrupts since the call up to it. */
  lemma SleepsExactly(s: State, c: int, es: seq<Event>)
    requires Inv(s) && Defined(s, Trap(Sleep(c))) && ValidRun(Step(s, Trap(Sleep(c))), es)
    ensures Dozes(Step(s, Trap(Sleep(c))), es, Cur(s)) <==> NotYet(es, c)
  {
    FallsAsleep(s, c);
    ClockStep(s, Trap(Sleep(c)));
    Runs.StepKeeps(s, Trap(Sleep(c)));
    DozesUntil(Step(s, Trap(Sleep(c))), es, Cur(s), s.time + c);
  }

  /** So a sleep for one cycle or more ends at the c-th interrupt, and any other at the first schedule. */
  lemma {:induction false} NotYetMeans(es: seq<Event>, c: int)
    ensures NotYet(es, c) <==> if c > 0 then Interrupts(es) < c else forall e :: e in es ==> !Dispatching.Schedules(e)
  {
    if es != [] {
      NotYetFirst(es, c);
      NotYetMeans(es[1..], c - Ticks(es[0]));
      assert es == [es[0]] + es[1..];
    }
  }

  /** As long as p makes no call, it waits, or has been woken and finds what it found when it went to sleep. */
  lemma {:induction false} WokenBy(s: State, es: seq<Event>, p: Pid, w: int)
    requires Inv(s) && ValidRun(s, es) && SleepsUntil(s, p, w) && Answers.Silent(s, es, p)
    ensures var u := Run(s, es);
      Answers.Same(s, u, p) && if NotYet(es, w - s.time) then p in u.waiting else Active(u, p) && p !in u.waiting
    decreases |es|
  {
    if es != [] {
      var t := Step(s, es[0]);
      NotYetFirst(es, w - s.time);
      AlarmStep(s, es[0], p, w);
      ClockStep(s, es[0]);
      Answers.StepKeeps(s, es[0], p);
      Runs.StepKeeps(s, es[0]);
      if SleepsUntil(t, p, w) {
        WokenBy(t, es[1..], p, w);
      } else {
        Answers.AnswerStays(t, es[1..], p);
        Runs.RunKeeps(t, es[1..]);
        Answers.ActiveIsNotWaiting(Run(t, es[1..]), p);
      }
    }
  }

  /** From the start: after a sleep for c cycles, and before its caller makes another call, the caller waits if there have been
      fewer than c interrupts since, and is ready or runs, with its answer as it was, if there have been c or more; if c is not
      positive, the first schedule wakes it. */
  lemma SleeperIsWoken(before: seq<Event>, c: int, es: seq<Event>)
    requires ValidRun(Boot(), before) && Defined(Run(Boot(), before), Trap(Sleep(c)))
    requires ValidRun(Step(Run(Boot(), before), Trap(Sleep(c))), es)
    requires Answers.Silent(Step(Run(Boot(), before), Trap(Sleep(c))), es, Cur(Run(Boot(), before)))
    ensures var s := Run(Boot(), before); var u, p := Run(Step(s, Trap(Sleep(c))), es), Cur(s);
      && At(u, p).ret == At(s, p).ret
      && if (if c > 0 then Interrupts(es) < c else forall e :: e in es ==> !Dispatching.Schedules(e)) then p in u.waiting
         else Active(u, p) && p !in u.waiting
  {
    var s := Run(Boot(), before);
    BootInv();
    Runs.RunKeeps(Boot(), before);
    SleptAndWoken(s, c, es);
  }

  lemma SleptAndWoken(s: State, c: int, es: seq<Event>)
    requires Inv(s) && Defined(s, Trap(Sleep(c)))
    requires ValidRun(Step(s, Trap(Sleep(c))), es) && Answers.Silent(Step(s, Trap(Sleep(c))), es, Cur(s))
    ensures var u, p := Run(Step(s, Trap(Sleep(c))), es), Cur(s);
      && At(u, p).ret == At(s, p).ret
      && if (if c > 0 then Interrupts(es) < c else forall e :: e in es ==> !Dispatching.Schedules(e)) then p in u.waiting
         else Active(u, p) && p !in u.waiting
  {
    NotYetMeans(es, c);
    FallsAsleep(s, c);
    ClockStep(s, Trap(Sleep(c)));
    Runs.StepKeeps(s, Trap(Sleep(c)));
    WokenBy(Step(s, Trap(Sleep(c))), es, Cur(s), s.time + c);
  }
}
