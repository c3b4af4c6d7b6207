/** Descriptors over whole runs: the two pools, and the two sides of every descriptor. */
module Descriptors {
  import opened Machine
  import opened Invariants
  import opened Frames
  import Outcomes
  import Scheduling
  import Processes
  import QueueCalls
  import Runs

  /** Over any run the two descriptor pools chain the same free blocks in the same order, so the pointer block, which the
      code does not check, is there whenever the descriptor block is. */
  lemma PoolsInLockstep(es: seq<Event>)
    requires ValidRun(Boot(), es)
    ensures var t := Run(Boot(), es); t.ptrPool == t.descPool && (t.descPool.free != [] ==> t.ptrPool.free != [])
  {
    BootInv();
    Runs.RunKeeps(Boot(), es);
  }

  /** The entry of a descriptor is in its queue and nowhere else, once, and no other process or descriptor has it. */
  lemma EntryIsUnique(s: State, p: Pid, d: Descriptor)
    requires Inv(s) && Holds(s, p, d)
    ensures d.mq in s.queues
    ensures exists k :: 0 <= k < |s.queues[d.mq].entries| && s.queues[d.mq].entries[k] == DescriptorPtr(d.ptr, d.block)
              && forall i, j :: i in s.queues && 0 <= j < |s.queues[i].entries| && s.queues[i].entries[j].block == d.ptr ==>
                   i == d.mq && j == k
    ensures forall q, x :: Holds(s, q, x) && x.ptr == d.ptr ==> q == p && x == d
    ensures forall x :: Holds(s, p, x) && x.fd == d.fd ==> x == d
  {
    var mine := DescriptorPtr(d.ptr, d.block);
    assert Entry(s, d.mq, mine);
    var es := s.queues[d.mq].entries;
    var k :| 0 <= k < |es| && es[k] == mine;
    forall i, j | i in s.queues && 0 <= j < |s.queues[i].entries| && s.queues[i].entries[j].block == d.ptr
      ensures i == d.mq && j == k
    {
      assert Entry(s, i, s.queues[i].entries[j]);
      assert BlocksDiffer(es);
    }
    FdsAreDistinct(s, p);
  }

  lemma FdsAreDistinct(s: State, p: Pid)
    requires Handles(s) && p in s.procs
    ensures forall x, y :: Holds(s, p, x) && Holds(s, p, y) && x.fd == y.fd ==> x == y
  { }

  // ----- every entry has its descriptor

  ghost predicate Owned(s: State, e: DescriptorPtr) {
    exists p, d :: Holds(s, p, d) && d.ptr == e.block
  }

  /** Every entry of a queue belongs to a descriptor that some process holds. */
  ghost predicate Matched(s: State) {
    forall id, e :: Entry(s, id, e) ==> Owned(s, e)
  }

  ghost predicate SameHandles(s: State, t: State) {
    && (forall p: Pid, d :: Holds(t, p, d) <==> Holds(s, p, d))
    && (forall id, e :: Entry(t, id, e) <==> Entry(s, id, e))
  }

  lemma SameMatched(s: State, t: State)
    requires SameHandles(s, t)
    ensures Matched(t) <==> Matched(s)
  { }

  lemma SameThen(s: State, t: State, u: State)
    requires SameHandles(s, t) && SameHandles(t, u)
    ensures SameHandles(s, u)
  { }

  /** A change of control blocks that leaves the descriptors alone. */
  lemma SameDescriptors(s: State, t: State)
    requires t.procs.Keys == s.procs.Keys && t.queues.Keys == s.queues.Keys
    requires forall p :: p in s.procs ==> t.procs[p].descriptors == s.procs[p].descriptors
    requires forall id :: id in s.queues ==> t.queues[id].entries == s.queues[id].entries
    ensures SameHandles(s, t)
  { }

  lemma DispatchSameHandles(s: State, mark: bool)
    requires s.ready != [] ==> s.ready[0] in s.procs
    ensures SameHandles(s, Dispatch(s, mark))
  { }

  lemma ReturnSameHandles(s: State, v: int)
    requires Cur(s) in s.procs
    ensures SameHandles(s, Return(s, v))
  { }

  lemma WokenSameHandles(s: State, t: State, ps: seq<Pid>)
    requires Scheduling.Woken(s, t, ps) && t.queues.Keys == s.queues.Keys
    requires forall id :: id in s.queues ==> t.queues[id].entries == s.queues[id].entries
    ensures SameHandles(s, t)
  { }

  lemma ScheduleSameHandles(s: State)
    requires Inv(s) && s.running.Some?
    ensures SameHandles(s, Schedule(s))
  {
    var w := WakeSleepers(s);
    Scheduling.WakeSleepersWoken(s);
    WokenSameHandles(s, w, TimerPids(s.timers[..Due(s.timers, s.time)]));
    Scheduling.WakeSleepersKeeps(s);
    HeadAlive(w);
    RotateSameHandles(w);
    SameThen(s, w, Rotate(w));
  }

  lemma RotateSameHandles(s: State)
    requires Cur(s) in s.procs && (s.ready != [] ==> s.ready[0] in s.procs)
    ensures SameHandles(s, Rotate(s))
  { }

  lemma BlockSameHandles(s: State, mark: bool)
    requires Cur(s) in s.procs && (s.ready != [] ==> s.ready[0] in s.procs)
    ensures SameHandles(s, Dispatch(Suspend(s), mark))
  { }

  lemma SleepSameHandles(s: State, cycles: int)
    requires Places(s) && s.running.Some?
    ensures SameHandles(s, DoSleep(s, cycles))
  { }

  lemma ForkSameHandles(s: State)
    requires Places(s) && s.running.Some?
    ensures SameHandles(s, DoFork(s))
  { }

  lemma WriteSameHandles(s: State, id: int, data: Message)
    requires Places(s) && s.running.Some?
    ensures SameHandles(s, DoWrite(s, id, data))
  {
    HeadAlive(s);
    if |data| > MAX_LEN_MESSAGE || id !in s.queues {
      ReturnSameHandles(s, ETOOLONG);
      ReturnSameHandles(s, DSOS_ERESOURCENOFD);
    } else if s.queues[id].numWritten == MAX_NUM_MESSAGES {
      var u := JoinWriters(s, id);
      SameDescriptors(s, u);
      BlockSameHandles(u, true);
      SameThen(s, u, DoWrite(s, id, data));
    } else {
      var t := Append(s, id, data);
      QueueCalls.AppendPasses(s, id, data);
      WokenSameHandles(s, t, s.queues[id].readers);
      ReturnSameHandles(t, |data|);
      SameThen(s, t, Return(t, |data|));
    }
  }

  lemma ReadSameHandles(s: State, id: int, room: int)
    requires Places(s) && s.running.Some? && id in s.queues
    ensures SameHandles(s, DoRead(s, id, room))
  {
    HeadAlive(s);
    var q := s.queues[id];
    if q.messages == [] {
      var u := JoinReaders(s, id);
      SameDescriptors(s, u);
      BlockSameHandles(u, true);
      SameThen(s, u, DoRead(s, id, room));
    } else if |q.messages[0]| > room {
      ReturnSameHandles(s, ESHORTBUFFER);
    } else {
      var t := Remove(s, id);
      QueueCalls.RemovePasses(s, id);
      WokenSameHandles(s, t, q.writers);
      ReturnSameHandles(t, |q.messages[0]|);
      SameThen(s, t, Return(t, |q.messages[0]|));
    }
  }

  lemma DestroySameHandles(s: State, id: int)
    requires Places(s) && s.running.Some?
    ensures SameHandles(s, DoDestroy(s, id))
  { }

  // ----- the steps that make or drop handles

  lemma AttachMatched(s: State, id: int)
    requires Inv(s) && s.running.Some? && id in s.queues && Matched(s)
    ensures Matched(Attach(s, id))
  {
    HeadAlive(s);
    var t := Attach(s, id);
    if s.descPool.free == [] {
      ReturnSameHandles(s, DSOS_ERESOURCENOFD);
      SameMatched(s, t);
    } else {
      var b := s.descPool.free[0];
      AttachChanges(s, id);
      assert Holds(t, Cur(s), Descriptor(b, Me(s).lastFd, id, b));
      forall i, e | Entry(t, i, e)
        ensures Owned(t, e)
      {
        if Entry(s, i, e) {
          assert Owned(s, e);
          var p, d :| Holds(s, p, d) && d.ptr == e.block;
          assert Holds(t, p, d);
        }
      }
    }
  }

  lemma AttachChanges(s: State, id: int)
    requires Handles(s) && Cur(s) in s.procs && id in s.queues && s.descPool.free != []
    ensures var t, b := Attach(s, id), s.descPool.free[0];
      && (forall p: Pid, x :: Holds(t, p, x) <==> Holds(s, p, x) || (p == Cur(s) && x == Descriptor(b, Me(s).lastFd, id, b)))
      && (forall i, x :: Entry(t, i, x) <==> Entry(s, i, x) || (i == id && x == DescriptorPtr(b, b)))
  { }

  lemma CreateMatched(s: State, id: int)
    requires Inv(s) && s.running.Some? && id !in s.queues && s.mqs.pool.free != [] && Matched(s)
    ensures Matched(Attach(Create(s, id), id))
  {
    var u := Create(s, id);
    CreateSameHandles(s, id);
    SameMatched(s, u);
    QueueCalls.CreateKeeps(s, id);
    AttachMatched(u, id);
  }

  lemma CreateSameHandles(s: State, id: int)
    requires id !in s.queues
    ensures SameHandles(s, Create(s, id))
  { }

  lemma OpenMatched(s: State, id: int, mode: int)
    requires Inv(s) && s.running.Some? && Provided(s, Open(id, mode)) && Matched(s)
    ensures Matched(DoOpen(s, id, mode))
  {
    HeadAlive(s);
    if mode == DSOS_CREATE && id in s.queues {
      ReturnSameHandles(s, DSOS_ERESOURCECREATE);
      SameMatched(s, Return(s, DSOS_ERESOURCECREATE));
    } else if mode == DSOS_CREATE {
      CreateMatched(s, id);
    } else if id !in s.queues {
      ReturnSameHandles(s, DSOS_ERESOURCEOPEN);
      SameMatched(s, Return(s, DSOS_ERESOURCEOPEN));
    } else if mode == DSOS_EXCL && s.queues[id].entries != [] {
      ReturnSameHandles(s, DSOS_ERESOURCENOEXCL);
      SameMatched(s, Return(s, DSOS_ERESOURCENOEXCL));
    } else {
      AttachMatched(s, id);
    }
  }

  /** Dropping both sides of descriptors that one process holds. */
  lemma ReleaseMatched(s: State, t: State, r: Pid, ds: seq<Descriptor>)
    requires Handles(s) && Matched(s)
    requires forall d :: d in ds ==> Holds(s, r, d)
    requires forall p: Pid, d :: Holds(s, p, d) && !(p == r && d in ds) ==> Holds(t, p, d)
    requires forall id, e :: Entry(t, id, e) <==> Entry(s, id, e) && e.block !in Ptrs(ds)
    ensures Matched(t)
  { }

  lemma CloseMatched(s: State, fd: int)
    requires Inv(s) && s.running.Some? && Matched(s)
    ensures Matched(DoClose(s, fd))
  {
    HeadAlive(s);
    var ds := Me(s).descriptors;
    var k := FdIndex(ds, fd);
    if k == |ds| {
      ReturnSameHandles(s, DSOS_ERESOURCECLOSE);
      SameMatched(s, DoClose(s, fd));
    } else {
      CloseChanges(s, fd);
      assert Holds(s, Cur(s), ds[k]);
      ReleaseMatched(s, DoClose(s, fd), Cur(s), [ds[k]]);
    }
  }

  lemma CloseChanges(s: State, fd: int)
    requires Cur(s) in s.procs && FdIndex(Me(s).descriptors, fd) < |Me(s).descriptors|
    ensures var t, d := DoClose(s, fd), Me(s).descriptors[FdIndex(Me(s).descriptors, fd)];
      && (forall p: Pid, x :: Holds(s, p, x) && !(p == Cur(s) && x in [d]) ==> Holds(t, p, x))
      && (forall id, e :: Entry(t, id, e) <==> Entry(s, id, e) && e.block !in Ptrs([d]))
  { }

  lemma BuryMatched(s: State)
    requires Matched(s) && Cur(s) in s.procs && (s.ready != [] ==> s.ready[0] in s.procs)
    ensures Matched(Dispatch(Bury(s), true))
  {
    SameDescriptors(s, Bury(s));
    DispatchSameHandles(Bury(s), true);
    SameThen(s, Bury(s), Dispatch(Bury(s), true));
    SameMatched(s, Dispatch(Bury(s), true));
  }

  lemma DepartMatched(s: State, value: int)
    requires Inv(s) && s.running.Some? && Cur(s) != INIT && Matched(s)
    ensures var u := Depart(s, value); Matched(u) && Handles(u) && u.procs.Keys == s.procs.Keys
  {
    Processes.DepartPlaces(s, value);
    Processes.DepartKeeps(s, value);
    SameDescriptors(s, Depart(s, value));
    SameMatched(s, Depart(s, value));
  }

  lemma ExitMatched(s: State, value: int)
    requires Inv(s) && s.running.Some? && Me(s).parent.Some? && Me(s).parent.value in s.procs && Matched(s)
    ensures Matched(DoExit(s, value))
  {
    HeadAlive(s);
    Processes.ParentIsOther(s);
    DepartMatched(s, value);
    if AwaitsExitOf(s, ParentOf(s, Cur(s)), Cur(s)) {
      DeliverMatched(Depart(s, value), ParentOf(s, Cur(s)));
    } else {
      BuryMatched(Depart(s, value));
    }
  }

  lemma DeliverMatched(s: State, p: Pid)
    requires Handles(s) && Matched(s) && Cur(s) in s.procs && p in s.procs && p != Cur(s)
    ensures Matched(Deliver(s, p))
  {
    var t, ds := Deliver(s, p), Me(s).descriptors;
    assert forall d :: d in ds ==> Holds(s, Cur(s), d);
    assert t.queues.Keys == s.queues.Keys && t.procs.Keys == s.procs.Keys - {Cur(s)};
    assert forall q: Pid, d :: Holds(s, q, d) && q != Cur(s) ==> Holds(t, q, d);
    ReleaseMatched(s, t, Cur(s), ds);
  }

  /** e reaps a process that still holds descriptors. */
  predicate LosesHandles(s: State, e: Event) {
    && e.Trap? && e.call.Wait? && Me(s).children != []
    && var c := Scan(s, Me(s).children, e.call.pid); At(s, c).status == Zombie && At(s, c).descriptors != []
  }

  lemma ReapMatched(s: State, c: Pid, hasCell: bool)
    requires Handles(s) && Matched(s) && Cur(s) in s.procs && c in s.procs && c != Cur(s)
    ensures Matched(Reap(s, c, hasCell)) <==> s.procs[c].descriptors == []
  {
    var t := Reap(s, c, hasCell);
    assert t.procs.Keys == s.procs.Keys - {c};
    assert forall p: Pid, d :: Holds(t, p, d) <==> Holds(s, p, d) && p != c;
    assert forall id, e :: Entry(t, id, e) <==> Entry(s, id, e);
    if s.procs[c].descriptors == [] {
      assert SameHandles(s, t);
      SameMatched(s, t);
    } else {
      var d := s.procs[c].descriptors[0];
      assert Holds(s, c, d);
      var e := DescriptorPtr(d.ptr, d.block);
      assert Entry(t, d.mq, e);
      forall p, x | Holds(t, p, x)
        ensures x.ptr != e.block
      {
        assert Holds(s, p, x);
      }
      assert !Owned(t, e);
    }
  }

  lemma WaitMatched(s: State, pid: int, hasCell: bool)
    requires Inv(s) && s.running.Some? && Matched(s)
    ensures Matched(DoWait(s, pid, hasCell)) <==> !LosesHandles(s, Trap(Wait(pid, hasCell)))
  {
    HeadAlive(s);
    if Me(s).children == [] {
      ReturnSameHandles(s, DSOS_EWAIT);
      SameMatched(s, DoWait(s, pid, hasCell));
    } else {
      var c := Scan(s, Me(s).children, pid);
      Processes.ScanFinds(s, Me(s).children, pid);
      assert Kid(s, Cur(s), c);
      if At(s, c).status == Zombie {
        ReapMatched(s, c, hasCell);
      } else {
        BlockSameHandles(s, false);
        SameMatched(s, DoWait(s, pid, hasCell));
      }
    }
  }

  lemma EnterSame(s: State, c: Call)
    requires Places(s) && s.running.Some?
    ensures SameHandles(s, Enter(s, c)) && (forall e :: LosesHandles(Enter(s, c), e) <==> LosesHandles(s, e))
  {
    HeadAlive(s);
    SameDescriptors(s, Enter(s, c));
    forall e
      ensures LosesHandles(Enter(s, c), e) <==> LosesHandles(s, e)
    {
      if e.Trap? && e.call.Wait? && Me(s).children != [] {
        Processes.SameScan(s, Enter(s, c), Me(s).children, e.call.pid);
      }
    }
  }

  lemma CallMatched(s: State, c: Call)
    requires Inv(s) && s.running.Some? && Provided(s, c) && Matched(s)
    ensures Matched(Perform(s, c)) <==> !LosesHandles(s, Trap(c))
  {
    var t := Perform(s, c);
    match c
    case Preempt => ScheduleSameHandles(s); SameMatched(s, t);
    case Fork => ForkSameHandles(s); SameMatched(s, t);
    case Sleep(cycles) => SleepSameHandles(s, cycles); SameMatched(s, t);
    case Wait(pid, hasCell) => WaitMatched(s, pid, hasCell);
    case Exit(value) => ExitMatched(s, value);
    case Open(id, mode) => OpenMatched(s, id, mode);
    case Close(fd) => CloseMatched(s, fd);
    case Destroy(id) => DestroySameHandles(s, id); SameMatched(s, t);
    case Write(id, data) => WriteSameHandles(s, id, data); SameMatched(s, t);
    case Read(id, room) => ReadSameHandles(s, id, room); SameMatched(s, t);
  }

  /** Every entry of a queue keeps its holder in every step, except when a process that exited without closing is reaped. */
  lemma MatchedExactly(s: State, e: Event)
    requires Inv(s) && Defined(s, e) && Matched(s)
    ensures Matched(Step(s, e)) <==> !LosesHandles(s, e)
  {
    match e
    case Interrupt =>
      TickSameHandles(s);
      SameMatched(s, Tick(s));
    case Trap(c) =>
      EnterKeeps(s, c);
      EnterSame(s, c);
      SameMatched(s, Enter(s, c));
      CallMatched(Enter(s, c), c);
  }

  lemma TickSameHandles(s: State)
    requires Inv(s) && s.running.Some?
    ensures SameHandles(s, Tick(s))
  {
    Scheduling.ClockKeeps(s);
    assert SameHandles(s, Clock(s));
    ScheduleSameHandles(Clock(s));
    SameThen(s, Clock(s), Tick(s));
  }

  // ----- an entry without its descriptor

  /** An entry of queue id that belongs to no descriptor anybody holds. */
  ghost predicate Orphan(s: State, id: int, e: DescriptorPtr) {
    Entry(s, id, e) && !Owned(s, e)
  }

  /** A step that reaps a process with open descriptors makes an orphan of the entry of each of them. */
  lemma ReapingOrphans(s: State, pid: int, hasCell: bool, d: Descriptor)
    requires Inv(s) && s.running.Some? && LosesHandles(s, Trap(Wait(pid, hasCell)))
    requires d in At(s, Scan(s, Me(s).children, pid)).descriptors
    ensures Orphan(Step(s, Trap(Wait(pid, hasCell))), d.mq, DescriptorPtr(d.ptr, d.block))
  {
    var c := Wait(pid, hasCell);
    HeadAlive(s);
    EnterKeeps(s, c);
    EnterScan(s, c, pid);
    WaitStep(s, pid, hasCell);
    WaitOrphans(Enter(s, c), pid, hasCell, d);
  }

  lemma WaitStep(s: State, pid: int, hasCell: bool)
    ensures Step(s, Trap(Wait(pid, hasCell))) == DoWait(Enter(s, Wait(pid, hasCell)), pid, hasCell)
  { }

  lemma EnterScan(s: State, c: Call, pid: int)
    requires Me(s).children != [] && Cur(s) in s.procs
    ensures var u := Enter(s, c);
      && Me(u).children == Me(s).children && Scan(u, Me(u).children, pid) == Scan(s, Me(s).children, pid)
      && forall k: Pid :: At(u, k).status == At(s, k).status && At(u, k).descriptors == At(s, k).descriptors
  {
    Processes.SameScan(s, Enter(s, c), Me(s).children, pid);
  }

  lemma WaitOrphans(s: State, pid: int, hasCell: bool, d: Descriptor)
    requires Inv(s) && s.running.Some? && Me(s).children != [] && At(s, Scan(s, Me(s).children, pid)).status == Zombie
    requires d in At(s, Scan(s, Me(s).children, pid)).descriptors
    ensures Orphan(DoWait(s, pid, hasCell), d.mq, DescriptorPtr(d.ptr, d.block))
  {
    HeadAlive(s);
    Processes.ScanFinds(s, Me(s).children, pid);
    assert Kid(s, Cur(s), Scan(s, Me(s).children, pid));
    ReapOrphans(s, Scan(s, Me(s).children, pid), hasCell, d);
  }

  lemma ReapOrphans(s: State, c: Pid, hasCell: bool, d: Descriptor)
    requires Handles(s) && Cur(s) in s.procs && c in s.procs && c != Cur(s) && d in s.procs[c].descriptors
    ensures Orphan(Reap(s, c, hasCell), d.mq, DescriptorPtr(d.ptr, d.block))
  {
    assert Holds(s, c, d) && Entry(s, d.mq, DescriptorPtr(d.ptr, d.block));
    ReapedHandles(s, c, hasCell);
    forall p, x | Holds(Reap(s, c, hasCell), p, x)
      ensures x.ptr != d.ptr
    {
      assert Holds(s, p, x) && p != c;
    }
  }

  lemma ReapedHandles(s: State, c: Pid, hasCell: bool)
    requires Cur(s) in s.procs && c in s.procs && c != Cur(s)
    ensures var t := Reap(s, c, hasCell);
      && (forall p: Pid, d :: Holds(t, p, d) <==> Holds(s, p, d) && p != c)
      && (forall id, e :: Entry(t, id, e) <==> Entry(s, id, e))
  {
    assert Reap(s, c, hasCell).procs.Keys == s.procs.Keys - {c};
  }

  /** A step that adds no descriptor for the entry and does not take the entry out. */
  lemma OrphanKept(s: State, t: State, id: int, e: DescriptorPtr)
    requires Orphan(s, id, e) && Entry(t, id, e)
    requires forall p: Pid, d :: Holds(t, p, d) ==> Holds(s, p, d) || d.ptr != e.block
    ensures Orphan(t, id, e)
  { }

  lemma SameOrphan(s: State, t: State, id: int, e: DescriptorPtr)
    requires SameHandles(s, t) && Orphan(s, id, e)
    ensures Orphan(t, id, e)
  { }

  /** The block of a new handle is free, so it is not that of an entry. */
  lemma AttachOrphan(s: State, i: int, id: int, e: DescriptorPtr)
    requires Handles(s) && Cur(s) in s.procs && i in s.queues && Orphan(s, id, e)
    ensures Orphan(Attach(s, i), id, e)
  {
    if s.descPool.free == [] {
      ReturnSameHandles(s, DSOS_ERESOURCENOFD);
      SameOrphan(s, Attach(s, i), id, e);
    } else {
      AttachChanges(s, i);
      assert !s.descPool.Out(s.descPool.free[0]);
      OrphanKept(s, Attach(s, i), id, e);
    }
  }

  lemma OpenOrphan(s: State, i: int, mode: int, id: int, e: DescriptorPtr)
    requires Inv(s) && s.running.Some? && Provided(s, Open(i, mode)) && Orphan(s, id, e)
    ensures Orphan(DoOpen(s, i, mode), id, e)
  {
    HeadAlive(s);
    if mode == DSOS_CREATE && i !in s.queues {
      CreateSameHandles(s, i);
      QueueCalls.CreateKeeps(s, i);
      SameOrphan(s, Create(s, i), id, e);
      AttachOrphan(Create(s, i), i, id, e);
    } else if i in s.queues && mode != DSOS_CREATE && !(mode == DSOS_EXCL && s.queues[i].entries != []) {
      AttachOrphan(s, i, id, e);
    } else {
      ReturnSameHandles(s, Me(DoOpen(s, i, mode)).ret);
      SameOrphan(s, Return(s, Me(DoOpen(s, i, mode)).ret), id, e);
    }
  }

  lemma CloseOrphan(s: State, fd: int, id: int, e: DescriptorPtr)
    requires Inv(s) && s.running.Some? && Orphan(s, id, e)
    ensures Orphan(DoClose(s, fd), id, e)
  {
    HeadAlive(s);
    var ds, k := Me(s).descriptors, FdIndex(Me(s).descriptors, fd);
    if k == |ds| {
      ReturnSameHandles(s, DSOS_ERESOURCECLOSE);
      SameOrphan(s, DoClose(s, fd), id, e);
    } else {
      CloseChanges(s, fd);
      CloseAddsNone(s, fd);
      assert Holds(s, Cur(s), ds[k]);
      assert ds[k].ptr != e.block;
      assert Ptrs([ds[k]]) == [ds[k].ptr];
      OrphanKept(s, DoClose(s, fd), id, e);
    }
  }

  lemma CloseAddsNone(s: State, fd: int)
    requires Cur(s) in s.procs
    ensures forall p: Pid, d :: Holds(DoClose(s, fd), p, d) ==> Holds(s, p, d)
  { }

  lemma WaitOrphan(s: State, pid: int, hasCell: bool, id: int, e: DescriptorPtr)
    requires Inv(s) && s.running.Some? && Orphan(s, id, e)
    ensures Orphan(DoWait(s, pid, hasCell), id, e)
  {
    HeadAlive(s);
    if Me(s).children == [] {
      ReturnSameHandles(s, DSOS_EWAIT);
      SameOrphan(s, DoWait(s, pid, hasCell), id, e);
    } else {
      var c := Scan(s, Me(s).children, pid);
      Processes.ScanFinds(s, Me(s).children, pid);
      assert Kid(s, Cur(s), c);
      if At(s, c).status == Zombie {
        ReapedHandles(s, c, hasCell);
        OrphanKept(s, Reap(s, c, hasCell), id, e);
      } else {
        BlockSameHandles(s, false);
        SameOrphan(s, DoWait(s, pid, hasCell), id, e);
      }
    }
  }

  lemma ExitOrphan(s: State, value: int, id: int, e: DescriptorPtr)
    requires Inv(s) && s.running.Some? && Me(s).parent.Some? && Me(s).parent.value in s.procs && Orphan(s, id, e)
    ensures Orphan(DoExit(s, value), id, e)
  {
    var u := Depart(s, value);
    HeadAlive(s);
    Processes.ParentIsOther(s);
    Processes.DepartPlaces(s, value);
    SameDescriptors(s, u);
    SameOrphan(s, u, id, e);
    if AwaitsExitOf(s, ParentOf(s, Cur(s)), Cur(s)) {
      DeliverOrphan(u, ParentOf(s, Cur(s)), id, e);
    } else {
      BuryOrphan(u, id, e);
    }
  }

  lemma BuryOrphan(s: State, id: int, e: DescriptorPtr)
    requires Cur(s) in s.procs && (s.ready != [] ==> s.ready[0] in s.procs) && Orphan(s, id, e)
    ensures Orphan(Dispatch(Bury(s), true), id, e)
  {
    SameDescriptors(s, Bury(s));
    DispatchSameHandles(Bury(s), true);
    SameThen(s, Bury(s), Dispatch(Bury(s), true));
    SameOrphan(s, Dispatch(Bury(s), true), id, e);
  }

  lemma DeliverOrphan(s: State, p: Pid, id: int, e: DescriptorPtr)
    requires Cur(s) in s.procs && p in s.procs && p != Cur(s) && Orphan(s, id, e)
    ensures Orphan(Deliver(s, p), id, e)
  {
    var t, ds := Deliver(s, p), Me(s).descriptors;
    assert t.queues.Keys == s.queues.Keys && t.procs.Keys == s.procs.Keys - {Cur(s)};
    forall i | 0 <= i < |ds|
      ensures ds[i].ptr != e.block
    {
      assert Holds(s, Cur(s), ds[i]);
    }
    OrphanKept(s, t, id, e);
  }

  lemma CallOrphan(s: State, c: Call, id: int, e: DescriptorPtr)
    requires Inv(s) && s.running.Some? && Provided(s, c) && Orphan(s, id, e)
    ensures Orphan(Perform(s, c), id, e)
  {
    var t := Perform(s, c);
    match c
    case Preempt => ScheduleSameHandles(s); SameOrphan(s, t, id, e);
    case Fork => ForkSameHandles(s); SameOrphan(s, t, id, e);
    case Sleep(cycles) => SleepSameHandles(s, cycles); SameOrphan(s, t, id, e);
    case Wait(pid, hasCell) => WaitOrphan(s, pid, hasCell, id, e);
    case Exit(value) => ExitOrphan(s, value, id, e);
    case Open(i, mode) => OpenOrphan(s, i, mode, id, e);
    case Close(fd) => CloseOrphan(s, fd, id, e);
    case Destroy(i) => DestroySameHandles(s, i); SameOrphan(s, t, id, e);
    case Write(i, data) => WriteSameHandles(s, i, data); SameOrphan(s, t, id, e);
    case Read(i, room) => ReadSameHandles(s, i, room); SameOrphan(s, t, id, e);
  }

  lemma StepOrphan(s: State, v: Event, id: int, e: DescriptorPtr)
    requires Inv(s) && Defined(s, v) && Orphan(s, id, e)
    ensures Orphan(Step(s, v), id, e)
  {
    match v
    case Interrupt =>
      TickSameHandles(s);
      SameOrphan(s, Tick(s), id, e);
    case Trap(c) =>
      EnterKeeps(s, c);
      EnterSame(s, c);
      SameOrphan(s, Enter(s, c), id, e);
      CallOrphan(Enter(s, c), c, id, e);
  }

  /** An orphaned entry stays for good, whatever happens. */
  lemma {:induction false} OrphanStays(s: State, es: seq<Event>, id: int, e: DescriptorPtr)
    requires Inv(s) && ValidRun(s, es) && Orphan(s, id, e)
    ensures Orphan(Run(s, es), id, e)
    decreases |es|
  {
    if es != [] {
      Runs.StepKeeps(s, es[0]);
      StepOrphan(s, es[0], id, e);
      OrphanStays(Step(s, es[0]), es[1..], id, e);
    }
  }

  /** So its queue is never destroyed: in every later state it is there and every destroy of it is refused. */
  lemma OrphanedQueueStays(s: State, es: seq<Event>, id: int, e: DescriptorPtr)
    requires Inv(s) && ValidRun(s, es) && Orphan(s, id, e) && Run(s, es).running.Some?
    ensures var t := Run(s, es);
      id in t.queues && Step(t, Trap(Destroy(id))).queues == t.queues && Me(Step(t, Trap(Destroy(id)))).ret == DSOS_ERESOURCEINUSE
  {
    OrphanStays(s, es, id, e);
    InUseIsRefused(Run(s, es), id);
  }

  lemma InUseIsRefused(s: State, id: int)
    requires id in s.queues && s.queues[id].entries != [] && s.running.Some?
    ensures var t := Step(s, Trap(Destroy(id))); t.queues == s.queues && Me(t).ret == DSOS_ERESOURCEINUSE
  { }

  // ----- no descriptor block gets lost

  /** Block b holds an entry of some queue. */
  ghost predicate Used(s: State, b: int) {
    exists id, e :: Entry(s, id, e) && e.block == b
  }

  /** Every block that is out holds an entry. */
  ghost predicate Accounted(s: State) {
    forall b :: s.descPool.Out(b) ==> Used(s, b)
  }

  lemma SameAccounted(s: State, t: State)
    requires Accounted(s) && t.descPool == s.descPool && forall id, e :: Entry(s, id, e) ==> Entry(t, id, e)
    ensures Accounted(t)
  {
    forall b | t.descPool.Out(b)
      ensures Used(t, b)
    {
      assert Used(s, b);
      var id, e :| Entry(s, id, e) && e.block == b;
      assert Entry(t, id, e);
    }
  }

  lemma OpenAccounted(s: State, t: State, id: int, c: Call)
    requires Accounted(s) && Handles(t) && Outcomes.Granted(s, t, id, c) && Cur(t) in t.procs
    ensures Accounted(t)
  {
    if s.descPool.free == [] {
      assert forall i, e :: Entry(s, i, e) ==> Entry(t, i, e);
      SameAccounted(s, t);
    } else {
      var d :| Outcomes.Opened(s, t, id, d) && d.block == s.descPool.free[0];
      assert Holds(t, Cur(t), d);
      forall b | t.descPool.Out(b)
        ensures Used(t, b)
      {
        if b == d.block {
          assert Entry(t, id, DescriptorPtr(d.ptr, d.block));
        } else {
          assert s.descPool.Out(b) && Used(s, b);
          var i, e :| Entry(s, i, e) && e.block == b;
          assert Entry(t, i, e);
        }
      }
    }
  }

  lemma CloseAccounted(s: State, t: State, d: Descriptor)
    requires Accounted(s) && Outcomes.Closed(s, t, d) && d.ptr == d.block
    ensures Accounted(t)
  {
    forall b | t.descPool.Out(b)
      ensures Used(t, b)
    {
      assert b != d.block by {
        assert t.descPool.free[0] == d.block;
      }
      assert forall x :: x in s.descPool.free ==> x in t.descPool.free by {
        assert forall k :: 0 <= k < |s.descPool.free| ==> t.descPool.free[k + 1] == s.descPool.free[k];
      }
      assert s.descPool.Out(b) && Used(s, b);
      var i, e :| Entry(s, i, e) && e.block == b;
      assert Entry(t, i, e);
    }
  }

  lemma ExitAccounted(s: State, t: State)
    requires Accounted(s) && Handles(s) && Cur(s) in s.procs
    requires forall i, e :: Entry(t, i, e) <==> Entry(s, i, e) && e.block !in Ptrs(Me(s).descriptors)
    requires t.descPool == s.descPool.PutAll(Blocks(Me(s).descriptors))
    ensures Accounted(t)
  {
    var ds := Me(s).descriptors;
    assert FdsGrow(ds, Me(s).lastFd);
    forall i | 0 <= i < |ds|
      ensures Blocks(ds)[i] == Ptrs(ds)[i] && s.descPool.Out(Blocks(ds)[i])
    {
      assert Holds(s, Cur(s), ds[i]);
    }
    assert Blocks(ds) == Ptrs(ds);
    forall i, j | 0 <= i < j < |ds|
      ensures Blocks(ds)[i] != Blocks(ds)[j]
    {
      assert Holds(s, Cur(s), ds[i]) && Holds(s, Cur(s), ds[j]);
    }
    PutAllBack(s.descPool, Blocks(ds));
    forall b | t.descPool.Out(b)
      ensures Used(t, b)
    {
      assert Used(s, b);
      var i, e :| Entry(s, i, e) && e.block == b;
      assert Entry(t, i, e);
    }
  }

  lemma StepAccounted(s: State, e: Event)
    requires Inv(s) && Defined(s, e) && Accounted(s)
    ensures Accounted(Step(s, e))
  {
    Outcomes.StepEnds(s, e);
    Outcomes.CallerApart(s);
    Runs.StepKeeps(s, e);
    EndsAccounted(s, e, Step(s, e));
  }

  lemma EndsAccounted(s: State, e: Event, t: State)
    requires Outcomes.Ends(s, e, t) && Accounted(s) && Handles(s) && Handles(t) && s.running.Some? && Cur(s) in s.procs
    ensures Accounted(t)
  {
    if e.Trap? && e.call.Open? && !Outcomes.Refused(s, t, e.call, Me(t).ret) {
      OpenAccounted(s, t, e.call.id, e.call);
    } else if e.Trap? && e.call.Close? && Outcomes.Has(s, e.call.fd) {
      var d: Descriptor :| d.fd == e.call.fd && Outcomes.Closed(s, t, d);
      assert Holds(s, Cur(s), d);
      CloseAccounted(s, t, d);
    } else if e.Trap? && e.call.Exit? && Outcomes.WaitsFor(s, Me(s).parent.value, Cur(s)) {
      ExitAccounted(s, t);
    } else if e.Trap? && (e.call.Write? || e.call.Read?) {
      MessagesKeepEntries(s, e.call, t);
      SameAccounted(s, t);
    } else {
      OthersKeepEntries(s, e, t);
      SameAccounted(s, t);
    }
  }

  lemma MessagesKeepEntries(s: State, c: Call, t: State)
    requires Outcomes.CallEnds(s, t, c) && (c.Write? || c.Read?)
    ensures t.descPool == s.descPool && forall id, e :: Entry(s, id, e) ==> Entry(t, id, e)
  { }

  lemma OthersKeepEntries(s: State, v: Event, t: State)
    requires Outcomes.Ends(s, v, t) && (v.Trap? ==> !v.call.Write? && !v.call.Read?)
    requires v.Trap? && v.call.Open? ==> Outcomes.Refused(s, t, v.call, Me(t).ret)
    requires v.Trap? && v.call.Close? ==> !Outcomes.Has(s, v.call.fd)
    requires v.Trap? && v.call.Exit? ==> Me(s).parent.Some? && !Outcomes.WaitsFor(s, Me(s).parent.value, Cur(s))
    ensures t.descPool == s.descPool && forall id, e :: Entry(s, id, e) ==> Entry(t, id, e)
  { }

  lemma {:induction false} AccountedStays(s: State, es: seq<Event>)
    requires Inv(s) && ValidRun(s, es) && Accounted(s)
    ensures Accounted(Run(s, es))
    decreases |es|
  {
    if es != [] {
      StepAccounted(s, es[0]);
      Runs.StepKeeps(s, es[0]);
      AccountedStays(Step(s, es[0]), es[1..]);
    }
  }

  /** After every run from the start the blocks of the descriptor pool that are out are exactly those with an entry in a queue, so
      an open finds none left exactly when all 2048 have one. */
  lemma BlocksAreUsed(es: seq<Event>)
    requires ValidRun(Boot(), es)
    ensures var t := Run(Boot(), es);
      && (forall b :: 0 <= b < 2048 ==> (b in t.descPool.free <==> !Used(t, b)))
      && (t.descPool.free == [] <==> forall b :: 0 <= b < 2048 ==> Used(t, b))
  {
    BootInv();
    Runs.RunKeeps(Boot(), es);
    BootAccounted();
    AccountedStays(Boot(), es);
    UsedIsOut(Run(Boot(), es));
  }

  lemma BootAccounted()
    ensures Accounted(Boot())
  {
    var p := Boot().descPool;
    forall b | 0 <= b < p.cap
      ensures b in p.free
    {
      assert p.free[b] == b;
    }
  }

  lemma UsedIsOut(s: State)
    requires Handles(s) && Accounted(s)
    ensures forall b :: 0 <= b < 2048 ==> (b in s.descPool.free <==> !Used(s, b))
    ensures s.descPool.free == [] <==> forall b :: 0 <= b < 2048 ==> Used(s, b)
  {
    assert s.descPool.free != [] ==> s.descPool.free[0] in s.descPool.free;
  }
}
