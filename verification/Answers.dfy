/** Answers over whole runs: what a caller finds when it runs again is what its call came to, and a read or write that had to
    wait comes to a refusal. */
module Answers {
  import opened Lists
  import opened Machine
  import opened Invariants
  import opened Outcomes
  import Fifo
  import Frames
  import QueueCalls
  import Runs

  predicate Calls(s: State, e: Event, p: Pid) {
    e.Trap? && s.running == Some(p)
  }

  /** p makes no call in the run. */
  predicate Silent(s: State, es: seq<Event>, p: Pid) {
    Runs.Along(s, es, (x, e) => !Calls(x, e, p))
  }

  /** p finds the same in t as in s. */
  predicate Same(s: State, t: State, p: Pid) {
    At(t, p).ret == At(s, p).ret && At(t, p).cell == At(s, p).cell && At(t, p).call == At(s, p).call
  }

  /** p, which was blocked in a read or write, is ready or runs, and finds the answer -20. */
  ghost predicate TurnedAway(s: State, t: State, p: Pid) {
    Active(t, p) && At(t, p).ret == -20 && At(t, p).cell == At(s, p).cell && At(t, p).call == At(s, p).call
  }

  /** What a step in which p makes no call does to p. */
  ghost predicate Keeps(s: State, t: State, p: Pid) {
    && (Active(s, p) ==> Active(t, p) && Same(s, t, p))
    && (p in s.waiting && Asleep(s, p) ==> (p in t.waiting || Active(t, p)) && Same(s, t, p))
    && (p in s.waiting && QueueCalls.InQueueCall(s, p) ==> (p in t.waiting && Same(s, t, p)) || TurnedAway(s, t, p))
  }

  // ----- one step

  /** What is known of a process that makes no call now. */
  ghost predicate Bystander(s: State, p: Pid) {
    && s.running.Some? && p in s.procs && s.procs[p].status != Zombie && (Active(s, p) ==> p !in s.waiting && s.procs[p].status != Waiting)
    && (forall i :: 0 <= i < |s.timers| && s.timers[i].pid == p ==> p in s.waiting && Asleep(s, p))
    && (forall id :: id in s.queues && (p in s.queues[id].readers || p in s.queues[id].writers) ==>
          p in s.waiting && QueueCalls.InQueueCall(s, p))
  }

  lemma BystanderIs(s: State, p: Pid)
    requires Inv(s) && s.running.Some? && (Active(s, p) || p in s.waiting)
    ensures Bystander(s, p)
  {
    Frames.HeadAlive(s);
    Frames.ReadyNotWaiting(s);
    forall id | id in s.queues
      ensures p in s.queues[id].readers || p in s.queues[id].writers ==> p in s.waiting && QueueCalls.InQueueCall(s, p)
    {
      assert QueueOk(s, id, s.queues[id]);
    }
  }

  lemma AtOnceKeeps(s: State, t: State, c: Call, p: Pid)
    requires AtOnce(s, t, c) && p != Cur(s)
    ensures Keeps(s, t, p)
  { }

  lemma RefusedKeeps(s: State, t: State, c: Call, v: int, p: Pid)
    requires Refused(s, t, c, v) && p != Cur(s)
    ensures Keeps(s, t, p)
  { }

  lemma BlockedKeeps(s: State, t: State, c: Call, p: Pid)
    requires Blocked(s, t, c) && p != Cur(s) && s.running.Some? && p in s.procs
    ensures Keeps(s, t, p)
  { }

  lemma WokeKeeps(s: State, t: State, c: Call, ps: seq<Pid>, v: int, p: Pid)
    requires Woke(s, t, c, ps, v) && p != Cur(s) && p in s.procs && (Active(s, p) ==> p !in s.waiting)
    requires p in ps ==> p in s.waiting && QueueCalls.InQueueCall(s, p)
    ensures Keeps(s, t, p)
  { }

  lemma ScheduleKeeps(s: State, t: State, e: Event, p: Pid)
    requires Bystander(s, p) && ScheduleEnds(s, t, e) && !Calls(s, e, p)
    ensures Keeps(s, t, p)
  {
    var ps := TimerPids(s.timers[..Due(s.timers, t.time)]);
    assert p in ps + s.ready + [Cur(s)] ==> p in [Cur(t)] + t.ready;
  }

  lemma ForkKeeps(s: State, t: State, p: Pid)
    requires ForkEnds(s, t) && p != Cur(s) && p in s.procs
    ensures Keeps(s, t, p)
  { }

  lemma SleepKeeps(s: State, t: State, cycles: int, p: Pid)
    requires SleepEnds(s, t, cycles) && p != Cur(s) && s.running.Some?
    ensures Keeps(s, t, p)
  { }

  lemma WaitKeeps(s: State, t: State, pid: int, hasCell: bool, p: Pid)
    requires WaitEnds(s, t, pid, hasCell) && p != Cur(s) && p in s.procs && s.procs[p].status != Zombie && s.running.Some?
    ensures Keeps(s, t, p)
  {
    var c := Wait(pid, hasCell);
    if Me(s).children == [] {
      RefusedKeeps(s, t, c, -5, p);
    } else if At(s, Scan(s, Me(s).children, pid)).status != Zombie {
      BlockedKeeps(s, t, c, p);
    }
  }

  lemma ExitKeeps(s: State, t: State, value: int, p: Pid)
    requires Bystander(s, p) && ExitEnds(s, t, value) && p != Cur(s)
    ensures Keeps(s, t, p)
  { }

  lemma CallKeeps(s: State, t: State, c: Call, p: Pid)
    requires Bystander(s, p) && CallEnds(s, t, c) && p != Cur(s)
    ensures Keeps(s, t, p)
  {
    match c
    case Preempt => ScheduleKeeps(s, t, Trap(c), p);
    case Fork => ForkKeeps(s, t, p);
    case Sleep(cycles) => SleepKeeps(s, t, cycles, p);
    case Wait(pid, hasCell) => WaitKeeps(s, t, pid, hasCell, p);
    case Exit(value) => ExitKeeps(s, t, value, p);
    case Open(_, _) => OnlyCallerKeeps(s, t, c, p);
    case Close(_) => OnlyCallerKeeps(s, t, c, p);
    case Destroy(_) => OnlyCallerKeeps(s, t, c, p);
    case Write(id, data) => WriteKeeps(s, t, id, data, p);
    case Read(id, room) => ReadKeeps(s, t, id, room, p);
  }

  lemma OnlyCallerKeeps(s: State, t: State, c: Call, p: Pid)
    requires CallEnds(s, t, c) && (c.Open? || c.Close? || c.Destroy?) && p != Cur(s)
    ensures Keeps(s, t, p)
  {
    EndsAtOnce(s, c, t);
    AtOnceKeeps(s, t, c, p);
  }

  lemma WriteKeeps(s: State, t: State, id: int, data: Message, p: Pid)
    requires Bystander(s, p) && WriteEnds(s, t, id, data) && p != Cur(s)
    ensures Keeps(s, t, p)
  {
    var c := Write(id, data);
    if |data| > 64 {
      RefusedKeeps(s, t, c, -146, p);
    } else if id !in s.queues {
      RefusedKeeps(s, t, c, -11, p);
    } else if |s.queues[id].messages| == 256 {
      BlockedKeeps(s, t, c, p);
    } else {
      WokeKeeps(s, t, c, s.queues[id].readers, |data|, p);
    }
  }

  lemma ReadKeeps(s: State, t: State, id: int, room: int, p: Pid)
    requires Bystander(s, p) && ReadEnds(s, t, id, room) && p != Cur(s)
    ensures Keeps(s, t, p)
  {
    var c, ms := Read(id, room), QueueAt(s, id).messages;
    if ms == [] {
      BlockedKeeps(s, t, c, p);
    } else if |ms[0]| > room {
      RefusedKeeps(s, t, c, -15, p);
    } else {
      WokeKeeps(s, t, c, QueueAt(s, id).writers, |ms[0]|, p);
    }
  }

  lemma EventKeeps(s: State, e: Event, t: State, p: Pid)
    requires Bystander(s, p) && Ends(s, e, t) && !Calls(s, e, p)
    ensures Keeps(s, t, p)
  {
    match e
    case Interrupt => ScheduleKeeps(s, t, e, p);
    case Trap(c) => CallKeeps(s, t, c, p);
  }

  lemma StepKeeps(s: State, e: Event, p: Pid)
    requires Inv(s) && Defined(s, e) && (Active(s, p) || p in s.waiting) && !Calls(s, e, p)
    ensures Keeps(s, Step(s, e), p)
  {
    BystanderIs(s, p);
    StepEnds(s, e);
    EventKeeps(s, e, Step(s, e), p);
  }

  // ----- runs

  /** Whoever is ready or runs finds, as long as it makes no call, what it was last answered. */
  lemma {:induction false} AnswerStays(s: State, es: seq<Event>, p: Pid)
    requires Inv(s) && ValidRun(s, es) && Silent(s, es, p) && Active(s, p)
    ensures Active(Run(s, es), p) && Same(s, Run(s, es), p)
    decreases |es|
  {
    if es != [] {
      StepKeeps(s, es[0], p);
      Runs.StepKeeps(s, es[0]);
      AnswerStays(Step(s, es[0]), es[1..], p);
    }
  }

  /** p is still blocked in the read or write it was blocked in. */
  ghost predicate StillBlocked(s: State, t: State, p: Pid) {
    p in t.waiting && QueueCalls.InQueueCall(t, p) && Same(s, t, p)
  }

  lemma BlockedStep(s: State, e: Event, p: Pid)
    requires Inv(s) && Defined(s, e) && !Calls(s, e, p) && p in s.waiting && QueueCalls.InQueueCall(s, p)
    ensures StillBlocked(s, Step(s, e), p) || TurnedAway(s, Step(s, e), p)
  {
    StepKeeps(s, e, p);
  }

  /** Whoever is blocked in a read or write is still blocked, or has been turned away with -20, in every run in which it makes no
      call. */
  lemma {:induction false} BlockedIsTurnedAway(s: State, es: seq<Event>, p: Pid)
    requires Inv(s) && ValidRun(s, es) && Silent(s, es, p) && p in s.waiting && QueueCalls.InQueueCall(s, p)
    ensures StillBlocked(s, Run(s, es), p) || TurnedAway(s, Run(s, es), p)
    decreases |es|
  {
    if es != [] {
      var t := Step(s, es[0]);
      BlockedStep(s, es[0], p);
      Runs.StepKeeps(s, es[0]);
      if StillBlocked(s, t, p) {
        BlockedIsTurnedAway(t, es[1..], p);
      } else {
        AnswerStays(t, es[1..], p);
      }
    }
  }

  /** The messages that a read or write passes on: none or one. */
  function Passed(s: State, c: Call): seq<Message> {
    if c.Read? then Fifo.Received(s, Trap(c), c.id)
    else if c.Write? then Fifo.Sent(s, Trap(c), c.id)
    else []
  }

  /** The caller of c is answered in t, and that tells what was passed on. */
  ghost predicate Tells(s: State, c: Call, answer: int) {
    && (Fifo.Succeeds(s, Trap(c)) <==> answer >= 0)
    && if answer >= 0 then |Passed(s, c)| == 1 && |Passed(s, c)[0]| == answer else Passed(s, c) == []
  }

  /** A read or write and its caller when it runs again, or is ready to, and has made no other call: the message was passed on
      exactly if the answer that it finds is not negative, which is then the length of the message. */
  lemma AnswerTellsSuccess(s: State, c: Call, es: seq<Event>)
    requires Inv(s) && Defined(s, Trap(c)) && (c.Read? || c.Write?)
    requires var t := Step(s, Trap(c)); ValidRun(t, es) && Silent(t, es, Cur(s)) && Active(Run(t, es), Cur(s))
    ensures Tells(s, c, At(Run(Step(s, Trap(c)), es), Cur(s)).ret)
  {
    var p, t := Cur(s), Step(s, Trap(c));
    Settled(s, c);
    Runs.StepKeeps(s, Trap(c));
    if Active(t, p) {
      AnswerStays(t, es, p);
    } else {
      BlockedIsTurnedAway(t, es, p);
      Runs.RunKeeps(t, es);
      ActiveIsNotWaiting(Run(t, es), p);
    }
  }

  lemma ActiveIsNotWaiting(s: State, p: Pid)
    requires Places(s)
    ensures Active(s, p) ==> p !in s.waiting
  { }

  /** The caller is answered at once, or waits and has passed nothing on. */
  lemma Settled(s: State, c: Call)
    requires Inv(s) && Defined(s, Trap(c)) && (c.Read? || c.Write?)
    ensures var p, t := Cur(s), Step(s, Trap(c));
      if Active(t, p) then Tells(s, c, At(t, p).ret)
      else p in t.waiting && QueueCalls.InQueueCall(t, p) && !Fifo.Succeeds(s, Trap(c)) && Passed(s, c) == []
  {
    CallerApart(s);
    CallOutcome(s, c);
    if c.Write? {
      WriteSettles(s, Step(s, Trap(c)), c);
    } else {
      ReadSettles(s, Step(s, Trap(c)), c);
    }
  }

  lemma WriteSettles(s: State, t: State, c: Call)
    requires s.running.Some? && Cur(s) !in s.ready && Cur(s) in s.procs
    requires c.Write? && t == Step(s, Trap(c)) && WriteEnds(s, t, c.id, c.data)
    ensures if Active(t, Cur(s)) then Tells(s, c, At(t, Cur(s)).ret)
            else Cur(s) in t.waiting && QueueCalls.InQueueCall(t, Cur(s)) && !Fifo.Succeeds(s, Trap(c)) && Passed(s, c) == []
  { }

  lemma ReadSettles(s: State, t: State, c: Call)
    requires s.running.Some? && Cur(s) !in s.ready && Cur(s) in s.procs
    requires c.Read? && t == Step(s, Trap(c)) && ReadEnds(s, t, c.id, c.room)
    ensures if Active(t, Cur(s)) then Tells(s, c, At(t, Cur(s)).ret)
            else Cur(s) in t.waiting && QueueCalls.InQueueCall(t, Cur(s)) && !Fifo.Succeeds(s, Trap(c)) && Passed(s, c) == []
  { }
}
