/** Who gets the processor when: bounded waiting in the ready list, the idle process, the pure rotation, and sleepers. */
module Dispatching {
  import opened Lists
  import opened Machine
  import opened Invariants
  import Frames
  import Scheduling
  import Processes
  import Runs

  predicate Schedules(e: Event) {
    e.Interrupt? || e.call.Preempt?
  }

  /** How many events of the run call internal_schedule. */
  function ScheduleCount(es: seq<Event>): nat {
    if es == [] then 0 else (if Schedules(es[0]) then 1 else 0) + ScheduleCount(es[1..])
  }

  /** p waits at a place from which at most n calls of internal_schedule bring it to the processor: the processes in front
      of it and the timers that may still put somebody in front of it. */
  ghost predicate Within(s: State, p: Pid, n: int) {
    exists i :: 0 <= i < |s.ready| && s.ready[i] == p && i + |s.timers| <= n
  }

  /** p runs, or waits within n calls of internal_schedule. */
  ghost predicate Near(s: State, p: Pid, n: int) {
    s.running == Some(p) || Within(s, p, n)
  }

  lemma PopAdvances(s: State, mark: bool, p: Pid, i: nat)
    requires i < |s.ready| && s.ready[i] == p
    ensures Near(Dispatch(s, mark), p, i + |s.timers| - 1)
  { }

  lemma JoinBehind(s: State, t: State, p: Pid, i: nat)
    requires i < |s.ready| && s.ready[i] == p
    requires s.ready <= t.ready && t.timers == s.timers
    ensures Near(t, p, i + |s.timers|)
  { }

  lemma ScheduleAdvances(s: State, p: Pid, i: nat)
    requires i < |s.ready| && s.ready[i] == p
    ensures Near(Schedule(s), p, i + |s.timers| - 1)
  {
    var n := Due(s.timers, s.time);
    var w := WakeSleepers(s);
    assert w.ready[n + i] == p;
    PopAdvances(StepBack(w), true, p, n + i);
  }

  /** Who starts a sleep makes up for its timer by taking the head of the ready list. */
  lemma SleepAdvances(s: State, cycles: int, p: Pid, i: nat)
    requires i < |s.ready| && s.ready[i] == p
    ensures Near(DoSleep(s, cycles), p, i + |s.timers|)
  { }

  lemma WaitAdvances(s: State, pid: int, hasCell: bool, p: Pid, i: nat)
    requires i < |s.ready| && s.ready[i] == p
    ensures Near(DoWait(s, pid, hasCell), p, i + |s.timers|)
  { }

  lemma ExitAdvances(s: State, value: int, p: Pid, i: nat)
    requires i < |s.ready| && s.ready[i] == p
    ensures Near(DoExit(s, value), p, i + |s.timers|)
  { }

  lemma WriteAdvances(s: State, id: int, data: Message, p: Pid, i: nat)
    requires i < |s.ready| && s.ready[i] == p
    ensures Near(DoWrite(s, id, data), p, i + |s.timers|)
  {
    if |data| <= MAX_LEN_MESSAGE && id in s.queues && s.queues[id].numWritten == MAX_NUM_MESSAGES {
      PopAdvances(Suspend(JoinWriters(s, id)), true, p, i);
    } else {
      JoinBehind(s, DoWrite(s, id, data), p, i);
    }
  }

  lemma ReadAdvances(s: State, id: int, room: int, p: Pid, i: nat)
    requires i < |s.ready| && s.ready[i] == p
    ensures Near(DoRead(s, id, room), p, i + |s.timers|)
  {
    if QueueAt(s, id).messages == [] {
      PopAdvances(Suspend(JoinReaders(s, id)), true, p, i);
    } else {
      JoinBehind(s, DoRead(s, id, room), p, i);
    }
  }

  lemma OtherAdvances(s: State, c: Call, p: Pid, i: nat)
    requires i < |s.ready| && s.ready[i] == p
    requires c.Fork? || c.Open? || c.Close? || c.Destroy?
    ensures Near(Perform(s, c), p, i + |s.timers|)
  {
    JoinBehind(s, Perform(s, c), p, i);
  }

  /** A step never moves p back, and a schedule moves it forward. */
  lemma StepAdvances(s: State, e: Event, p: Pid, n: int)
    requires Within(s, p, n)
    ensures Near(Step(s, e), p, if Schedules(e) then n - 1 else n)
  {
    var i :| 0 <= i < |s.ready| && s.ready[i] == p && i + |s.timers| <= n;
    match e
    case Interrupt => ScheduleAdvances(Clock(s), p, i);
    case Trap(c) =>
      var t := Enter(s, c);
      match c {
        case Preempt => ScheduleAdvances(t, p, i);
        case Sleep(cycles) => SleepAdvances(t, cycles, p, i);
        case Wait(pid, hasCell) => WaitAdvances(t, pid, hasCell, p, i);
        case Exit(value) => ExitAdvances(t, value, p, i);
        case Write(id, data) => WriteAdvances(t, id, data, p, i);
        case Read(id, room) => ReadAdvances(t, id, room, p, i);
        case _ => OtherAdvances(t, c, p, i);
      }
  }

  /** Bounded waiting: whatever calls interleave, a process behind i others in the ready list, with T timers pending, has
      the processor at the latest when internal_schedule has been called i + T + 1 times. */
  lemma {:induction false} BoundedDispatch(s: State, es: seq<Event>, p: Pid, n: int)
    requires Within(s, p, n) && ScheduleCount(es) > n
    ensures exists k :: 0 < k <= |es| && Run(s, es[..k]).running == Some(p)
    decreases |es|
  {
    var t := Step(s, es[0]);
    StepAdvances(s, es[0], p, n);
    if t.running == Some(p) {
      assert es[..1] == [es[0]] && Run(s, es[..1]) == Run(t, []) == t;
    } else {
      BoundedDispatch(t, es[1..], p, if Schedules(es[0]) then n - 1 else n);
      var k :| 0 < k <= |es[1..]| && Run(t, es[1..][..k]).running == Some(p);
      assert es[..k + 1][0] == es[0] && es[..k + 1][1..] == es[1..][..k];
    }
  }

  /** The bound at its first use: the position in the list and the number of timers are all that counts. */
  lemma ReadyProcessRuns(s: State, es: seq<Event>, i: nat)
    requires i < |s.ready| && ScheduleCount(es) == i + |s.timers| + 1
    ensures exists k :: 0 < k <= |es| && Run(s, es[..k]).running == Some(s.ready[i])
  {
    assert Within(s, s.ready[i], i + |s.timers|);
    BoundedDispatch(s, es, s.ready[i], i + |s.timers|);
  }

  // ----- the idle process

  /** The calls that may suspend or end their caller. */
  predicate MayBlock(c: Call) {
    c.Sleep? || c.Wait? || c.Exit? || c.Write? || c.Read?
  }

  /** What is asked of a run with an idle process: the pools that are not checked have a block, and the idle process, when
      it runs, makes no call that may block. Nothing is asked of the ready list. */
  predicate Quiet(s: State, e: Event, idle: Pid) {
    e.Trap? ==> Provided(s, e.call) && (s.running == Some(idle) ==> !MayBlock(e.call))
  }

  lemma CallKeepsRunner(s: State, c: Call)
    requires !MayBlock(c) && !c.Preempt?
    ensures Perform(s, c).running == s.running
  { }

  lemma ScheduleKeepsRunner(s: State)
    requires s.running.Some?
    ensures Schedule(s).running.Some?
    ensures Schedule(s).running == s.running || s.running.value in Schedule(s).ready
  {
    var w := WakeSleepers(s);
    if w.ready != [] {
      assert StepBack(w).ready[|w.ready|] == s.running.value;
      PopAdvances(StepBack(w), true, s.running.value, |w.ready|);
    }
  }

  /** The idle process stays active and, through it, every call finds the next process it takes from the ready list. */
  lemma IdleStep(s: State, e: Event, idle: Pid)
    requires Active(s, idle) && s.running.Some? && Quiet(s, e, idle)
    ensures Defined(s, e) && Active(Step(s, e), idle) && Step(s, e).running.Some?
  {
    if s.running == Some(idle) {
      match e
      case Interrupt => ScheduleKeepsRunner(Clock(s));
      case Trap(c) =>
        if c.Preempt? {
          ScheduleKeepsRunner(Enter(s, c));
        } else {
          CallKeepsRunner(Enter(s, c), c);
        }
    } else {
      var i :| 0 <= i < |s.ready| && s.ready[i] == idle;
      assert Within(s, idle, i + |s.timers|);
      StepAdvances(s, e, idle, i + |s.timers|);
      StepRuns(s, e);
    }
  }

  /** With somebody ready, every step leaves somebody running. */
  lemma StepRuns(s: State, e: Event)
    requires s.ready != [] && s.running.Some?
    ensures Step(s, e).running.Some?
  {
    match e
    case Interrupt => ScheduleKeepsRunner(Clock(s));
    case Trap(c) =>
      if c.Preempt? {
        ScheduleKeepsRunner(Enter(s, c));
      } else if c.Exit? || c.Sleep? || c.Wait? {
        ProcessCallRuns(Enter(s, c), c);
      } else {
        QueueCallRuns(Enter(s, c), c);
      }
  }

  lemma ProcessCallRuns(s: State, c: Call)
    requires s.ready != [] && s.running.Some? && (c.Exit? || c.Sleep? || c.Wait?)
    ensures Perform(s, c).running.Some?
  { }

  lemma QueueCallRuns(s: State, c: Call)
    requires s.ready != [] && s.running.Some? && !(c.Preempt? || c.Exit? || c.Sleep? || c.Wait?)
    ensures Perform(s, c).running.Some?
  { }

  /** In every run in which the idle process never blocks or exits, no call ever finds the ready list empty when it takes
      its head, and somebody always runs. */
  lemma {:induction false} IdleRun(s: State, es: seq<Event>, idle: Pid)
    requires Active(s, idle) && s.running.Some? && Runs.Along(s, es, (x, e) => Quiet(x, e, idle))
    ensures ValidRun(s, es) && Active(Run(s, es), idle) && Run(s, es).running.Some?
    decreases |es|
  {
    if es != [] {
      IdleStep(s, es[0], idle);
      IdleRun(Step(s, es[0]), es[1..], idle);
    }
  }

  /** From the start: init first makes the idle process, as its first child. */
  lemma IdleFromBoot(es: seq<Event>)
    requires Runs.Along(Step(Boot(), Trap(Fork)), es, (x, e) => Quiet(x, e, 1))
    ensures ValidRun(Boot(), [Trap(Fork)] + es) && Inv(Run(Boot(), [Trap(Fork)] + es))
  {
    var s := Step(Boot(), Trap(Fork));
    assert s.ready[0] == 1;
    IdleRun(s, es, 1);
    assert ([Trap(Fork)] + es)[1..] == es;
    BootInv();
    Runs.RunKeeps(Boot(), [Trap(Fork)] + es);
  }

  // ----- the pure rotation

  /** The running process followed by the ready ones. */
  function Ring(s: State): seq<Pid> {
    [Cur(s)] + s.ready
  }

  lemma RingOnce(s: State)
    requires Places(s) && s.running.Some?
    ensures NoDup(Ring(s))
  { }

  predicate AllSchedule(es: seq<Event>) {
    forall e :: e in es ==> Schedules(e)
  }

  lemma TurnRing(s: State, e: Event)
    requires Schedules(e) && s.timers == [] && s.running.Some?
    ensures var t := Step(s, e);
      t.timers == [] && t.running.Some? && Ring(t) == Ring(s)[1..] + [Cur(s)]
  {
    if e.Interrupt? {
      ScheduleTurnsRing(Clock(s));
    } else {
      ScheduleTurnsRing(Enter(s, e.call));
    }
  }

  lemma ScheduleTurnsRing(s: State)
    requires s.timers == [] && s.running.Some?
    ensures var t := Schedule(s); t.timers == [] && t.running.Some? && Ring(t) == Ring(s)[1..] + [Cur(s)]
  { }

  lemma TurnOnce(r: seq<Pid>, q: seq<Pid>, n: nat)
    requires n < |r| && q == r[n..] + r[..n]
    ensures q[1..] + [q[0]] == r[n + 1..] + r[..n + 1]
  { }

  /** Without timers, k schedules turn the ring by k places. */
  lemma {:induction false} RingTurned(s: State, es: seq<Event>)
    requires AllSchedule(es) && s.timers == [] && s.running.Some? && |es| <= |Ring(s)|
    ensures var t := Run(s, es);
      t.timers == [] && t.running.Some? && Ring(t) == Ring(s)[|es|..] + Ring(s)[..|es|]
    decreases |es|
  {
    if es != [] {
      var n := |es| - 1;
      RingTurned(s, es[..n]);
      Runs.RunLast(s, es);
      var u := Run(s, es[..n]);
      TurnRing(u, es[n]);
      TurnOnce(Ring(s), Ring(u), n);
    }
  }

  /** With no timers pending, as many schedules as there are ready processes and one more give each of them and the running
      process exactly one turn, in order, and end where they began. */
  lemma PureRotation(s: State, es: seq<Event>)
    requires Inv(s) && AllSchedule(es) && s.timers == [] && s.running.Some? && |es| == |s.ready| + 1
    ensures NoDup(Ring(s)) && forall k :: 0 <= k < |es| ==> Run(s, es[..k]).running == Some(Ring(s)[k])
    ensures Run(s, es).running == s.running && Run(s, es).ready == s.ready
  {
    RingOnce(s);
    forall k | 0 <= k < |es|
      ensures Run(s, es[..k]).running == Some(Ring(s)[k])
    {
      RingTurned(s, es[..k]);
      assert Ring(Run(s, es[..k]))[0] == Ring(s)[k];
    }
    RingTurned(s, es);
    assert Ring(Run(s, es)) == Ring(s);
    assert Ring(s)[1..] == s.ready && Ring(Run(s, es))[1..] == Run(s, es).ready;
  }

  // ----- sleepers

  /** internal_schedule wakes exactly the sleepers whose time has come: they go in front of the ready list in the order of
      their timers, and every timer left lies in the future. */
  lemma WakesExactlyTheDue(s: State)
    requires Inv(s)
    ensures var w, n := WakeSleepers(s), Due(s.timers, s.time);
      && w.ready == TimerPids(s.timers[..n]) + s.ready
      && w.timers == s.timers[n..]
      && (forall i :: 0 <= i < |s.timers| ==> (i < n <==> s.timers[i].time <= s.time))
      && (forall i :: 0 <= i < |s.timers| ==> (s.timers[i].pid in w.ready <==> s.timers[i].time <= s.time))
      && (forall i :: 0 <= i < |s.timers| ==> (s.timers[i].pid in w.waiting <==> s.timers[i].time > s.time))
  {
    Scheduling.DueOrLater(s);
    Frames.ReadyNotWaiting(s);
  }

  /** A new timer goes behind all those that are not later, so that equal times keep the order of sleeping. */
  lemma StableInsertion(ts: seq<Timer>, t: Timer)
    requires TimersOrdered(ts)
    ensures exists k :: 0 <= k <= |ts| && InsertTimer(ts, t) == ts[..k] + [t] + ts[k..]
              && (forall i :: 0 <= i < k ==> ts[i].time <= t.time) && (forall i :: k <= i < |ts| ==> t.time < ts[i].time)
  {
    var k := Due(ts, t.time);
    assert InsertTimer(ts, t) == ts[..k] + [t] + ts[k..];
  }

  /** internal_sleep never fails: the timer pool is as large as the table of processes, and at least the caller has no
      timer. */
  lemma SleepNeverFails(s: State)
    requires Inv(s) && s.running.Some?
    ensures !Me(s).hasTimer && s.timerPool.free != [] && |s.timers| < |s.procs|
  {
    Processes.RunnerTimerless(s);
    Frames.HeadAlive(s);
    FewerTimersThanProcesses(s.timers, s.procs.Keys, Cur(s)) by {
      forall i | 0 <= i < |s.timers|
        ensures s.timers[i].pid in s.procs.Keys - {Cur(s)}
      {
        assert s.timers[i].pid in s.waiting;
      }
    }
  }

  lemma FewerTimersThanProcesses(ts: seq<Timer>, all: set<Pid>, spare: Pid)
    requires TimersOrdered(ts) && spare in all
    requires forall i :: 0 <= i < |ts| ==> ts[i].pid in all - {spare}
    ensures |ts| < |all|
  {
    var ps := TimerPids(ts);
    assert NoDup(ps);
    NoDupCardinality(ps);
    var sleeping := set p | p in ps;
    Fewer(sleeping, all - {spare});
    assert |all - {spare}| == |all| - 1;
  }

  lemma {:induction false} Fewer(a: set<Pid>, b: set<Pid>)
    requires a <= b
    ensures |a| <= |b|
  {
    if a != {} {
      var x :| x in a;
      Fewer(a - {x}, b - {x});
    }
  }
}
