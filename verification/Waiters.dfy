/** Processes blocked on a queue: nobody is stranded, unless a queue is destroyed under its waiters; and processes that use
    only queues they hold open never let that happen. */
module Waiters {
  import opened Lists
  import opened Machine
  import opened Invariants
  import Frames
  import Scheduling
  import QueueCalls
  import Runs

  /** Everybody blocked in a read or write waits at an existing queue. */
  ghost predicate NoneStranded(s: State) {
    forall p, id ::
      && (p in s.waiting && ReadsFrom(s, p, id) ==> id in s.queues && p in s.queues[id].readers)
      && (p in s.waiting && WritesTo(s, p, id) ==> id in s.queues && p in s.queues[id].writers)
  }

  predicate HoldsOpen(s: State, p: Pid, id: int) {
    exists d :: d in At(s, p).descriptors && d.mq == id
  }

  predicate Waits(s: State, p: Pid, id: int) {
    id in s.queues && (p in s.queues[id].readers || p in s.queues[id].writers)
  }

  /** Whoever waits at a queue holds it open. */
  ghost predicate WaitersHold(s: State) {
    forall p, id :: Waits(s, p, id) ==> HoldsOpen(s, p, id)
  }

  /** A change that lets nobody new wait at a queue and takes nobody away from one but by waking him. */
  ghost predicate Calm(s: State, t: State) {
    && (forall p :: p in t.waiting ==>
          || (p in s.waiting && At(t, p).call == At(s, p).call && At(t, p).descriptors == At(s, p).descriptors)
          || !QueueCalls.InQueueCall(t, p))
    && (forall p :: p in s.waiting && QueueCalls.InQueueCall(s, p) ==> p in t.waiting && At(t, p).descriptors == At(s, p).descriptors)
    && (forall id :: id in s.queues ==>
          id in t.queues && t.queues[id].readers == s.queues[id].readers && t.queues[id].writers == s.queues[id].writers)
    && (forall id :: id in t.queues && id !in s.queues ==> t.queues[id].readers == [] && t.queues[id].writers == [])
  }

  lemma CalmStrandsNobody(s: State, t: State)
    requires NoneStranded(s) && Calm(s, t)
    ensures NoneStranded(t)
  { }

  lemma CalmHolds(s: State, t: State)
    requires QueuesOk(s) && WaitersHold(s) && Calm(s, t)
    ensures WaitersHold(t)
  {
    forall p, id | Waits(t, p, id)
      ensures HoldsOpen(t, p, id)
    {
      assert Waits(s, p, id) && QueueOk(s, id, s.queues[id]);
      assert HoldsOpen(s, p, id);
    }
  }

  // ----- the calm steps

  lemma CalmThen(s: State, t: State, u: State)
    requires Calm(s, t) && u.waiting == t.waiting && u.queues == t.queues
    requires forall p :: At(u, p).call == At(t, p).call && At(u, p).descriptors == At(t, p).descriptors
    ensures Calm(s, u)
  { }

  lemma WakeSleepersCalm(s: State)
    requires Places(s) && Sleepers(s)
    ensures Calm(s, WakeSleepers(s))
  { }

  lemma ScheduleCalm(s: State)
    requires Inv(s) && s.running.Some?
    ensures Calm(s, Schedule(s))
  {
    var w := WakeSleepers(s);
    Scheduling.WakeSleepersKeeps(s);
    WakeSleepersCalm(s);
    Frames.HeadAlive(w);
    RotateCalm(w);
    CalmThen(s, w, Rotate(w));
  }

  lemma RotateCalm(s: State)
    requires s.running.Some? && Cur(s) !in s.waiting && (s.ready != [] ==> s.ready[0] !in s.waiting)
    ensures Calm(s, Rotate(s)) && Rotate(s).waiting == s.waiting && Rotate(s).queues == s.queues
    ensures forall p :: At(Rotate(s), p).call == At(s, p).call && At(Rotate(s), p).descriptors == At(s, p).descriptors
  { }

  lemma SleepCalm(s: State, cycles: int)
    requires Places(s) && s.running.Some? && Asleep(s, Cur(s))
    ensures Calm(s, DoSleep(s, cycles))
  {
    Frames.HeadAlive(s);
  }

  lemma ForkCalm(s: State)
    requires Places(s) && s.running.Some?
    ensures Calm(s, DoFork(s))
  { }

  lemma WaitCalm(s: State, pid: int, hasCell: bool)
    requires Places(s) && s.running.Some? && InWait(s, Cur(s))
    ensures Calm(s, DoWait(s, pid, hasCell))
  {
    Frames.HeadAlive(s);
    if Me(s).children != [] {
      var c := Scan(s, Me(s).children, pid);
      if At(s, c).status == Zombie {
        assert c !in s.waiting;
      }
    }
  }

  lemma ExitCalm(s: State, value: int)
    requires Places(s) && s.running.Some? && Me(s).parent.Some? && ParentOf(s, Cur(s)) in s.procs
    ensures Calm(s, DoExit(s, value))
  {
    Frames.HeadAlive(s);
    var d := Depart(s, value);
    var p := ParentOf(s, Cur(s));
    DepartSame(s, value);
    if AwaitsExitOf(s, p, Cur(s)) {
      DeliverCalm(d, p);
      SameThenCalm(s, d, Deliver(d, p));
    } else {
      BuryCalm(d);
      SameThenCalm(s, d, Dispatch(Bury(d), true));
    }
  }

  lemma DepartSame(s: State, value: int)
    ensures var d := Depart(s, value);
      && d.waiting == s.waiting && d.queues == s.queues && Cur(d) == Cur(s) && d.ready == s.ready
      && forall p :: At(d, p).call == At(s, p).call && At(d, p).descriptors == At(s, p).descriptors
  { }

  lemma SameThenCalm(s: State, t: State, u: State)
    requires t.waiting == s.waiting && t.queues == s.queues && Calm(t, u)
    requires forall p :: At(t, p).call == At(s, p).call && At(t, p).descriptors == At(s, p).descriptors
    ensures Calm(s, u)
  { }

  lemma DeliverCalm(s: State, p: Pid)
    requires Cur(s) !in s.waiting && InWait(s, p)
    ensures Calm(s, Deliver(s, p))
  { }

  lemma BuryCalm(s: State)
    requires Cur(s) !in s.waiting && (s.ready != [] ==> s.ready[0] !in s.waiting)
    ensures Calm(s, Dispatch(Bury(s), true))
  { }

  lemma AttachCalm(s: State, id: int)
    requires s.running.Some? && Cur(s) !in s.waiting && id in s.queues
    ensures Calm(s, Attach(s, id))
  { }

  lemma CreateCalm(s: State, id: int)
    requires s.running.Some? && Cur(s) !in s.waiting && id !in s.queues
    ensures Calm(s, Attach(Create(s, id), id))
  { }

  lemma OpenCalm(s: State, id: int, mode: int)
    requires s.running.Some? && Cur(s) !in s.waiting
    ensures Calm(s, DoOpen(s, id, mode))
  {
    if mode == DSOS_CREATE && id !in s.queues {
      CreateCalm(s, id);
    } else if id in s.queues {
      AttachCalm(s, id);
    }
  }

  lemma CloseCalm(s: State, fd: int)
    requires Places(s) && s.running.Some?
    ensures Calm(s, DoClose(s, fd))
  { }

  lemma DispatchSame(s: State, mark: bool)
    ensures var t := Dispatch(s, mark);
      && t.waiting == s.waiting && t.queues == s.queues
      && forall p :: At(t, p).call == At(s, p).call && At(t, p).descriptors == At(s, p).descriptors
  { }

  // ----- reads and writes

  /** A step on queue id: who waited elsewhere still does, and who waits here is listed here. */
  ghost predicate OnQueue(s: State, t: State, id: int) {
    && id in s.queues && id in t.queues
    && (forall p :: p in t.waiting ==>
          || (p in s.waiting && At(t, p).call == At(s, p).call && At(t, p).descriptors == At(s, p).descriptors)
          || ReadsFrom(t, p, id) || WritesTo(t, p, id))
    && (forall p :: p in s.waiting && At(t, p).descriptors != At(s, p).descriptors ==> p !in t.waiting)
    && t.queues.Keys == s.queues.Keys
    && (forall i :: i in s.queues && i != id ==> t.queues[i] == s.queues[i])
    && (forall p :: p in t.waiting && ReadsFrom(t, p, id) ==> p in t.queues[id].readers)
    && (forall p :: p in t.waiting && WritesTo(t, p, id) ==> p in t.queues[id].writers)
  }

  lemma OnQueueStrandsNobody(s: State, t: State, id: int)
    requires NoneStranded(s) && OnQueue(s, t, id)
    ensures NoneStranded(t)
  { }

  lemma JoinedOnQueue(s: State, t: State, id: int)
    requires NoneStranded(s) && QueueCalls.Joined(s, t, id) && Cur(s) !in s.waiting
    requires forall p :: At(t, p).descriptors == At(s, p).descriptors
    requires forall p :: p in s.queues[id].readers ==> p in t.queues[id].readers
    requires forall p :: p in s.queues[id].writers ==> p in t.queues[id].writers
    requires ReadsFrom(s, Cur(s), id) ==> Cur(s) in t.queues[id].readers
    requires WritesTo(s, Cur(s), id) ==> Cur(s) in t.queues[id].writers
    requires ReadsFrom(s, Cur(s), id) || WritesTo(s, Cur(s), id)
    ensures OnQueue(s, t, id)
  { }

  lemma JoinStrandsNobody(s: State, u: State, id: int)
    requires Places(s) && s.running.Some? && NoneStranded(s) && id in s.queues
    requires (u == JoinReaders(s, id) && ReadsFrom(s, Cur(s), id)) || (u == JoinWriters(s, id) && WritesTo(s, Cur(s), id))
    ensures NoneStranded(Dispatch(Suspend(u), true))
  {
    var t := Suspend(u);
    Frames.HeadAlive(s);
    QueueCalls.JoinSame(s, id, u);
    SuspendDescriptors(u);
    JoinedOnQueue(s, t, id);
    OnQueueStrandsNobody(s, t, id);
    DispatchSame(t, true);
    SameStrandsNobody(t, Dispatch(t, true));
  }

  lemma SuspendDescriptors(s: State)
    ensures forall p :: At(Suspend(s), p).descriptors == At(s, p).descriptors
  { }

  lemma SameStrandsNobody(s: State, t: State)
    requires NoneStranded(s) && t.waiting == s.waiting && t.queues == s.queues
    requires forall p :: At(t, p).call == At(s, p).call
    ensures NoneStranded(t)
  { }

  lemma WokenOnQueue(s: State, t: State, id: int, ps: seq<Pid>)
    requires NoneStranded(s) && QueueCalls.Passed(s, t, id, ps)
    requires forall p :: p in s.queues[id].readers && p !in ps ==> p in t.queues[id].readers
    requires forall p :: p in s.queues[id].writers && p !in ps ==> p in t.queues[id].writers
    ensures OnQueue(s, t, id)
  { }

  lemma ReturnSame(s: State, v: int)
    ensures var t := Return(s, v);
      && t.waiting == s.waiting && t.queues == s.queues
      && forall p :: At(t, p).call == At(s, p).call && At(t, p).descriptors == At(s, p).descriptors
  { }

  lemma ReturnCalm(s: State, v: int)
    ensures Calm(s, Return(s, v))
  { }

  /** A read or write strands nobody. */
  lemma WriteStrandsNobody(s: State, id: int, data: Message)
    requires Inv(s) && s.running.Some? && NoneStranded(s) && WritesTo(s, Cur(s), id)
    ensures NoneStranded(DoWrite(s, id, data))
  {
    if |data| > MAX_LEN_MESSAGE || id !in s.queues {
      ReturnCalm(s, ETOOLONG);
      ReturnCalm(s, DSOS_ERESOURCENOFD);
      CalmStrandsNobody(s, DoWrite(s, id, data));
    } else if s.queues[id].numWritten == MAX_NUM_MESSAGES {
      JoinStrandsNobody(s, JoinWriters(s, id), id);
    } else {
      var t := Append(s, id, data);
      QueueCalls.AppendPasses(s, id, data);
      WokenOnQueue(s, t, id, s.queues[id].readers);
      OnQueueStrandsNobody(s, t, id);
      ReturnCalm(t, |data|);
      CalmStrandsNobody(t, Return(t, |data|));
    }
  }

  lemma ReadStrandsNobody(s: State, id: int, room: int)
    requires Inv(s) && s.running.Some? && NoneStranded(s) && ReadsFrom(s, Cur(s), id) && id in s.queues
    ensures NoneStranded(DoRead(s, id, room))
  {
    var q := s.queues[id];
    if q.messages == [] {
      JoinStrandsNobody(s, JoinReaders(s, id), id);
    } else if |q.messages[0]| > room {
      ReturnCalm(s, ESHORTBUFFER);
      CalmStrandsNobody(s, DoRead(s, id, room));
    } else {
      var t := Remove(s, id);
      QueueCalls.RemovePasses(s, id);
      WokenOnQueue(s, t, id, q.writers);
      OnQueueStrandsNobody(s, t, id);
      ReturnCalm(t, |q.messages[0]|);
      CalmStrandsNobody(t, Return(t, |q.messages[0]|));
    }
  }

  // ----- destroy

  /** e destroys a queue under its waiters. */
  predicate Strands(s: State, e: Event) {
    && e.Trap? && e.call.Destroy? && e.call.id in s.queues
    && s.queues[e.call.id].entries == []
    && (s.queues[e.call.id].readers != [] || s.queues[e.call.id].writers != [])
  }

  lemma VanishStrands(s: State, id: int)
    requires QueuesOk(s) && NoneStranded(s) && id in s.queues
    ensures NoneStranded(Vanish(s, id)) <==> s.queues[id].readers == [] && s.queues[id].writers == []
  {
    var q := s.queues[id];
    assert QueueOk(s, id, q);
    if q.readers != [] {
      StrandedBy(s, Vanish(s, id), q.readers[0], id);
    } else if q.writers != [] {
      StrandedBy(s, Vanish(s, id), q.writers[0], id);
    }
  }

  lemma DestroyStrands(s: State, id: int)
    requires QueuesOk(s) && NoneStranded(s)
    ensures NoneStranded(DoDestroy(s, id)) <==> !Strands(s, Trap(Destroy(id)))
  {
    if id !in s.queues || s.queues[id].entries != [] {
      ReturnSame(s, DSOS_ERESOURCECLOSE);
      ReturnSame(s, DSOS_ERESOURCEINUSE);
      SameStrandsNobody(s, DoDestroy(s, id));
    } else {
      var v := Vanish(s, id);
      VanishStrands(s, id);
      ReturnSame(v, 0);
      if NoneStranded(v) {
        SameStrandsNobody(v, Return(v, 0));
      } else if NoneStranded(Return(v, 0)) {
        SameStrandsNobody(Return(v, 0), v);
      }
    }
  }

  lemma StrandedBy(s: State, t: State, p: Pid, id: int)
    requires p in t.waiting && id !in t.queues && (ReadsFrom(t, p, id) || WritesTo(t, p, id))
    ensures !NoneStranded(t)
  { }

  lemma EnterCalm(s: State, c: Call)
    requires Places(s) && s.running.Some?
    ensures Calm(s, Enter(s, c))
  { }

  lemma CallCalm(s: State, c: Call)
    requires Inv(s) && s.running.Some? && Provided(s, c) && At(s, Cur(s)).call == Some(c)
    requires !c.Write? && !c.Read? && !c.Destroy?
    ensures Calm(s, Perform(s, c))
  {
    Frames.HeadAlive(s);
    match c
    case Preempt => ScheduleCalm(s);
    case Fork => ForkCalm(s);
    case Sleep(cycles) => SleepCalm(s, cycles);
    case Wait(pid, hasCell) => WaitCalm(s, pid, hasCell);
    case Exit(value) => ExitCalm(s, value);
    case Open(id, mode) => OpenCalm(s, id, mode);
    case Close(fd) => CloseCalm(s, fd);
  }

  /** In any run somebody blocked in a read or write loses the queue he waits at exactly when it is destroyed under him. */
  lemma StrandsExactly(s: State, e: Event)
    requires Inv(s) && Defined(s, e) && NoneStranded(s)
    ensures NoneStranded(Step(s, e)) <==> !Strands(s, e)
  {
    match e
    case Interrupt =>
      TickCalm(s);
      CalmStrandsNobody(s, Tick(s));
    case Trap(c) =>
      var u := Enter(s, c);
      Frames.EnterKeeps(s, c);
      EnterCalm(s, c);
      CalmStrandsNobody(s, u);
      CallStrands(u, c);
  }

  lemma CallStrands(s: State, c: Call)
    requires Inv(s) && s.running.Some? && Provided(s, c) && At(s, Cur(s)).call == Some(c) && NoneStranded(s)
    ensures NoneStranded(Perform(s, c)) <==> !Strands(s, Trap(c))
  {
    match c
    case Write(id, data) => WriteStrandsNobody(s, id, data);
    case Read(id, room) => ReadStrandsNobody(s, id, room);
    case Destroy(id) => DestroyStrands(s, id);
    case _ =>
      CallCalm(s, c);
      CalmStrandsNobody(s, Perform(s, c));
  }

  lemma TickCalm(s: State)
    requires Inv(s) && s.running.Some?
    ensures Calm(s, Tick(s))
  {
    Scheduling.ClockKeeps(s);
    ScheduleCalm(Clock(s));
    ClockSame(s);
    SameThenCalm(s, Clock(s), Schedule(Clock(s)));
  }

  lemma ClockSame(s: State)
    ensures Clock(s).waiting == s.waiting && Clock(s).queues == s.queues && forall p :: At(Clock(s), p) == At(s, p)
  { }

  // ----- processes that use only what they hold open

  /** The caller reads and writes only queues it holds open. */
  predicate UsesOwn(s: State, e: Event) {
    e.Trap? && (e.call.Read? || e.call.Write?) ==> HoldsOpen(s, Cur(s), e.call.id)
  }

  lemma WaitersHoldStays(s: State, t: State, r: Pid, id: int)
    requires WaitersHold(s) && HoldsOpen(s, r, id)
    requires forall p, i :: Waits(t, p, i) ==> Waits(s, p, i) || (p == r && i == id)
    requires forall p :: At(t, p).descriptors == At(s, p).descriptors
    ensures WaitersHold(t)
  { }

  lemma WriteHolds(s: State, id: int, data: Message)
    requires WaitersHold(s) && HoldsOpen(s, Cur(s), id)
    ensures WaitersHold(DoWrite(s, id, data))
  {
    var t := DoWrite(s, id, data);
    WriteWaiters(s, id, data);
    WriteDescriptors(s, id, data);
    WaitersHoldStays(s, t, Cur(s), id);
  }

  lemma WriteWaiters(s: State, id: int, data: Message)
    ensures forall p, i :: Waits(DoWrite(s, id, data), p, i) ==> Waits(s, p, i) || (p == Cur(s) && i == id)
  { }

  lemma WriteDescriptors(s: State, id: int, data: Message)
    ensures forall p :: At(DoWrite(s, id, data), p).descriptors == At(s, p).descriptors
  { }

  lemma ReadHolds(s: State, id: int, room: int)
    requires WaitersHold(s) && HoldsOpen(s, Cur(s), id)
    ensures WaitersHold(DoRead(s, id, room))
  {
    var t := DoRead(s, id, room);
    ReadWaiters(s, id, room);
    ReadDescriptors(s, id, room);
    WaitersHoldStays(s, t, Cur(s), id);
  }

  lemma ReadWaiters(s: State, id: int, room: int)
    ensures forall p, i :: Waits(DoRead(s, id, room), p, i) ==> Waits(s, p, i) || (p == Cur(s) && i == id)
  { }

  lemma ReadDescriptors(s: State, id: int, room: int)
    ensures forall p :: At(DoRead(s, id, room), p).descriptors == At(s, p).descriptors
  { }

  lemma DestroyHolds(s: State, id: int)
    requires WaitersHold(s)
    ensures WaitersHold(DoDestroy(s, id))
  {
    var t := DoDestroy(s, id);
    forall p, i | Waits(t, p, i)
      ensures HoldsOpen(t, p, i)
    {
      assert Waits(s, p, i) && HoldsOpen(s, p, i);
    }
  }

  lemma HoldsStep(s: State, e: Event)
    requires Inv(s) && Defined(s, e) && WaitersHold(s) && UsesOwn(s, e)
    ensures WaitersHold(Step(s, e))
  {
    match e
    case Interrupt =>
      TickCalm(s);
      CalmHolds(s, Tick(s));
    case Trap(c) =>
      var u := Enter(s, c);
      Frames.EnterKeeps(s, c);
      EnterCalm(s, c);
      CalmHolds(s, u);
      CallHolds(u, c);
  }

  lemma CallHolds(s: State, c: Call)
    requires Inv(s) && s.running.Some? && Provided(s, c) && At(s, Cur(s)).call == Some(c) && WaitersHold(s) && UsesOwn(s, Trap(c))
    ensures WaitersHold(Perform(s, c))
  {
    match c
    case Write(id, data) => WriteHolds(s, id, data);
    case Read(id, room) => ReadHolds(s, id, room);
    case Destroy(id) => DestroyHolds(s, id);
    case _ =>
      CallCalm(s, c);
      CalmHolds(s, Perform(s, c));
  }

  lemma HeldHasEntry(s: State, p: Pid, id: int)
    requires Inv(s) && WaitersHold(s) && Waits(s, p, id)
    ensures s.queues[id].entries != []
  {
    assert QueueOk(s, id, s.queues[id]) && HoldsOpen(s, p, id);
    var d :| d in At(s, p).descriptors && d.mq == id;
    assert Holds(s, p, d) && Entry(s, id, DescriptorPtr(d.ptr, d.block));
  }

  /** A queue that somebody waits at and holds open has an entry, so the check of destroy refuses it. */
  lemma HeldIsNotDestroyed(s: State, e: Event)
    requires Inv(s) && WaitersHold(s)
    ensures !Strands(s, e)
  {
    if e.Trap? && e.call.Destroy? && e.call.id in s.queues {
      var q := s.queues[e.call.id];
      if q.readers != [] {
        HeldHasEntry(s, q.readers[0], e.call.id);
      } else if q.writers != [] {
        HeldHasEntry(s, q.writers[0], e.call.id);
      }
    }
  }

  /** In every run in which processes use only queues they hold open, no queue is ever destroyed under its waiters: whoever is
      blocked in a read waits at an existing queue that is empty, and whoever is blocked in a write at one that is full. */
  lemma {:induction false} NoLostQueueWakeup(s: State, es: seq<Event>)
    requires Inv(s) && NoneStranded(s) && WaitersHold(s)
    requires ValidRun(s, es) && Runs.Along(s, es, UsesOwn)
    ensures var t := Run(s, es);
      && NoneStranded(t) && WaitersHold(t)
      && (forall p, id :: p in t.waiting && ReadsFrom(t, p, id) ==>
            id in t.queues && p in t.queues[id].readers && t.queues[id].messages == [])
      && (forall p, id :: p in t.waiting && WritesTo(t, p, id) ==>
            id in t.queues && p in t.queues[id].writers && |t.queues[id].messages| == MAX_NUM_MESSAGES)
    decreases |es|
  {
    if es == [] {
      assert forall id :: id in s.queues ==> QueueOk(s, id, s.queues[id]);
    } else {
      HeldIsNotDestroyed(s, es[0]);
      StrandsExactly(s, es[0]);
      HoldsStep(s, es[0]);
      Runs.StepKeeps(s, es[0]);
      NoLostQueueWakeup(Step(s, es[0]), es[1..]);
    }
  }

  lemma BootWaiters()
    ensures Inv(Boot()) && NoneStranded(Boot()) && WaitersHold(Boot())
  {
    BootInv();
  }

  /** From the start. */
  lemma WakeupsFromBoot(es: seq<Event>)
    requires ValidRun(Boot(), es) && Runs.Along(Boot(), es, UsesOwn)
    ensures var t := Run(Boot(), es);
      && NoneStranded(t) && WaitersHold(t)
      && (forall p, id :: p in t.waiting && ReadsFrom(t, p, id) ==>
            id in t.queues && p in t.queues[id].readers && t.queues[id].messages == [])
      && (forall p, id :: p in t.waiting && WritesTo(t, p, id) ==>
            id in t.queues && p in t.queues[id].writers && |t.queues[id].messages| == MAX_NUM_MESSAGES)
  {
    BootWaiters();
    NoLostQueueWakeup(Boot(), es);
  }
}
