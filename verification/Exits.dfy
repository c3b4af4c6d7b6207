/** Exit and wait over whole runs: who learns of an exit, and what it learns. */
module Exits {
  import opened Lists
  import opened Machine
  import opened Invariants
  import Frames
  import Scheduling
  import Processes
  import QueueCalls
  import Runs

  predicate IsZombie(s: State, p: Pid) {
    p in s.procs && s.procs[p].status == Zombie
  }

  predicate InWaitCall(s: State, p: Pid) {
    At(s, p).status == Waiting && InWait(s, p)
  }

  /** A step that has nothing to do with births, exits and waits: nobody is born, dies, or changes parents or children, and
      nobody enters or leaves a wait. */
  ghost predicate Unrelated(s: State, t: State) {
    && t.procs.Keys == s.procs.Keys && t.lastPid == s.lastPid
    && (forall p: Pid :: p in s.procs ==>
          && t.procs[p].parent == s.procs[p].parent && t.procs[p].children == s.procs[p].children
          && t.procs[p].exitValue == s.procs[p].exitValue)
    && (forall p: Pid :: IsZombie(t, p) <==> IsZombie(s, p))
    && (forall p: Pid :: InWaitCall(t, p) <==> InWaitCall(s, p))
    && (forall p: Pid :: InWaitCall(s, p) ==> At(t, p).call == At(s, p).call)
  }

  lemma UnrelatedThen(s: State, t: State, u: State)
    requires Unrelated(s, t) && Unrelated(t, u)
    ensures Unrelated(s, u)
  { }

  lemma WokenUnrelated(s: State, t: State, ps: seq<Pid>)
    requires Scheduling.Woken(s, t, ps)
    requires forall p: Pid :: p in s.procs ==> t.procs[p].exitValue == s.procs[p].exitValue
    requires forall p: Pid :: p in ps ==> !IsZombie(s, p) && !InWait(s, p)
    ensures Unrelated(s, t)
  { }

  lemma DispatchUnrelated(s: State, mark: bool)
    requires s.ready != [] ==> !Dead(s, s.ready[0]) && At(s, s.ready[0]).status != Waiting
    ensures Unrelated(s, Dispatch(s, mark))
  { }

  lemma RunnerUnrelated(s: State, t: State)
    requires Cur(s) in s.procs && Me(s).status != Waiting && Me(s).status != Zombie
    requires t.lastPid == s.lastPid && t.procs.Keys == s.procs.Keys
    requires forall p: Pid :: p in s.procs && p != Cur(s) ==> t.procs[p] == s.procs[p]
    requires var x := t.procs[Cur(s)];
      && x.parent == Me(s).parent && x.children == Me(s).children && x.exitValue == Me(s).exitValue && x.status != Zombie
      && (x.status == Waiting ==> x.call.Some? && !x.call.value.Wait?)
    ensures Unrelated(s, t)
  { }

  lemma RunnerActive(s: State)
    requires Places(s)
    ensures s.running.Some? ==> !Dead(s, Cur(s)) && Me(s).status != Waiting
    ensures s.ready != [] ==> !Dead(s, s.ready[0]) && At(s, s.ready[0]).status != Waiting
  { }

  lemma EnterUnrelated(s: State, c: Call)
    requires Places(s) && s.running.Some?
    ensures Unrelated(s, Enter(s, c))
  {
    RunnerActive(s);
    RunnerUnrelated(s, Enter(s, c));
  }

  lemma ReturnUnrelated(s: State, v: int)
    requires Cur(s) in s.procs && Me(s).status != Waiting && Me(s).status != Zombie
    ensures Unrelated(s, Return(s, v))
  { }

  lemma ScheduleUnrelated(s: State)
    requires Inv(s) && s.running.Some?
    ensures Unrelated(s, Schedule(s))
  {
    var w := WakeSleepers(s);
    WakeUnrelated(s);
    Scheduling.WakeSleepersKeeps(s);
    RotateUnrelated(w);
    UnrelatedThen(s, w, Rotate(w));
  }

  lemma WakeUnrelated(s: State)
    requires Places(s) && Sleepers(s)
    ensures Unrelated(s, WakeSleepers(s))
  {
    Scheduling.DueTimers(s);
    Scheduling.WakeSleepersWoken(s);
    WokenUnrelated(s, WakeSleepers(s), TimerPids(s.timers[..Due(s.timers, s.time)]));
  }

  lemma RotateUnrelated(s: State)
    requires Places(s) && s.running.Some?
    ensures Unrelated(s, Rotate(s))
  {
    if s.ready != [] {
      RunnerActive(s);
      RunnerUnrelated(s, StepBack(s));
      Scheduling.StepBackPlaces(s);
      RunnerActive(StepBack(s));
      DispatchUnrelated(StepBack(s), true);
      UnrelatedThen(s, StepBack(s), Rotate(s));
    }
  }

  /** Blocking in anything but a wait. */
  lemma BlockUnrelated(s: State, u: State, mark: bool)
    requires Places(s) && s.running.Some? && u.procs == s.procs && u.ready == s.ready && u.running == s.running && u.lastPid == s.lastPid
    requires At(s, Cur(s)).call.Some? && !InWait(s, Cur(s))
    ensures Unrelated(s, Dispatch(Suspend(u), mark))
  {
    var t := Suspend(u);
    RunnerActive(s);
    RunnerUnrelated(s, t);
    DispatchUnrelated(t, mark);
    UnrelatedThen(s, t, Dispatch(t, mark));
  }

  lemma PassUnrelated(s: State, t: State, id: int, ps: seq<Pid>)
    requires QueuesOk(s) && Places(s) && QueueCalls.Passed(s, t, id, ps)
    requires ps == s.queues[id].readers || ps == s.queues[id].writers
    requires forall p: Pid :: p in s.procs ==> t.procs[p].exitValue == s.procs[p].exitValue
    ensures Unrelated(s, t)
  {
    assert QueueOk(s, id, s.queues[id]);
    WokenUnrelated(s, t, ps);
  }

  lemma WriteUnrelated(s: State, id: int, data: Message)
    requires Inv(s) && s.running.Some? && WritesTo(s, Cur(s), id)
    ensures Unrelated(s, DoWrite(s, id, data))
  {
    RunnerActive(s);
    if |data| > MAX_LEN_MESSAGE || id !in s.queues {
      ReturnUnrelated(s, ETOOLONG);
      ReturnUnrelated(s, DSOS_ERESOURCENOFD);
    } else if s.queues[id].numWritten == MAX_NUM_MESSAGES {
      BlockUnrelated(s, JoinWriters(s, id), true);
    } else {
      var t := Append(s, id, data);
      QueueCalls.AppendPasses(s, id, data);
      PassUnrelated(s, t, id, s.queues[id].readers);
      QueueCalls.AppendKeeps(s, id, data);
      RunnerActive(t);
      ReturnUnrelated(t, |data|);
      UnrelatedThen(s, t, Return(t, |data|));
    }
  }

  lemma ReadUnrelated(s: State, id: int, room: int)
    requires Inv(s) && s.running.Some? && ReadsFrom(s, Cur(s), id) && id in s.queues
    ensures Unrelated(s, DoRead(s, id, room))
  {
    RunnerActive(s);
    var q := s.queues[id];
    if q.messages == [] {
      BlockUnrelated(s, JoinReaders(s, id), true);
    } else if |q.messages[0]| > room {
      ReturnUnrelated(s, ESHORTBUFFER);
    } else {
      var t := Remove(s, id);
      QueueCalls.RemovePasses(s, id);
      PassUnrelated(s, t, id, q.writers);
      QueueCalls.RemoveKeeps(s, id);
      RunnerActive(t);
      ReturnUnrelated(t, |q.messages[0]|);
      UnrelatedThen(s, t, Return(t, |q.messages[0]|));
    }
  }

  lemma SleepUnrelated(s: State, cycles: int)
    requires Places(s) && s.running.Some? && Asleep(s, Cur(s))
    ensures Unrelated(s, DoSleep(s, cycles))
  {
    RunnerActive(s);
    if Me(s).hasTimer || s.timerPool.free == [] {
      ReturnUnrelated(s, DSOS_ESLEEP);
    } else {
      BlockUnrelated(s, SetTimer(s, cycles), false);
    }
  }

  /** Of the control blocks only the caller's changes, and only what an open or an error leaves there. */
  ghost predicate TouchesCaller(s: State, t: State) {
    && t.lastPid == s.lastPid
    && t.procs == s.procs[Cur(s) := Me(s).(ret := Me(t).ret, lastFd := Me(t).lastFd, descriptors := Me(t).descriptors)]
  }

  lemma OpenUnrelated(s: State, id: int, mode: int)
    requires Places(s) && s.running.Some?
    ensures Unrelated(s, DoOpen(s, id, mode))
  {
    RunnerActive(s);
    OpenTouchesCaller(s, id, mode);
    RunnerUnrelated(s, DoOpen(s, id, mode));
  }

  lemma OpenTouchesCaller(s: State, id: int, mode: int)
    requires Cur(s) in s.procs
    ensures TouchesCaller(s, DoOpen(s, id, mode))
  {
    if mode == DSOS_CREATE && id !in s.queues {
      CreateTouchesNobody(s, id);
      AttachTouchesCaller(Create(s, id), id);
    } else if mode != DSOS_CREATE && id in s.queues && !(mode == DSOS_EXCL && s.queues[id].entries != []) {
      AttachTouchesCaller(s, id);
    } else {
      ReturnTouchesCaller(s, Me(DoOpen(s, id, mode)).ret);
    }
  }

  lemma ReturnTouchesCaller(s: State, v: int)
    requires Cur(s) in s.procs
    ensures TouchesCaller(s, Return(s, v))
  { }

  lemma CreateTouchesNobody(s: State, id: int)
    ensures var t := Create(s, id); t.procs == s.procs && t.lastPid == s.lastPid && t.running == s.running
  { }

  lemma AttachTouchesCaller(s: State, id: int)
    requires Cur(s) in s.procs
    ensures TouchesCaller(s, Attach(s, id))
  { }

  lemma CloseUnrelated(s: State, fd: int)
    requires Places(s) && s.running.Some?
    ensures Unrelated(s, DoClose(s, fd))
  {
    RunnerActive(s);
    RunnerUnrelated(s, DoClose(s, fd));
  }

  lemma DestroyUnrelated(s: State, id: int)
    requires Places(s) && s.running.Some?
    ensures Unrelated(s, DoDestroy(s, id))
  {
    RunnerActive(s);
    RunnerUnrelated(s, DoDestroy(s, id));
  }

  /** All calls but fork, wait and exit. */
  lemma CallUnrelated(s: State, c: Call)
    requires Inv(s) && s.running.Some? && Provided(s, c) && At(s, Cur(s)).call == Some(c)
    requires !c.Fork? && !c.Wait? && !c.Exit?
    ensures Unrelated(s, Perform(s, c))
  {
    match c
    case Preempt => ScheduleUnrelated(s);
    case Sleep(cycles) => SleepUnrelated(s, cycles);
    case Write(id, data) => WriteUnrelated(s, id, data);
    case Read(id, room) => ReadUnrelated(s, id, room);
    case Open(id, mode) => OpenUnrelated(s, id, mode);
    case Close(fd) => CloseUnrelated(s, fd);
    case Destroy(id) => DestroyUnrelated(s, id);
  }

  lemma ClockUnrelated(s: State)
    ensures Unrelated(s, Clock(s))
  { }

  lemma TickUnrelated(s: State)
    requires Inv(s) && s.running.Some?
    ensures Unrelated(s, Tick(s))
  {
    Scheduling.ClockKeeps(s);
    ClockUnrelated(s);
    ScheduleUnrelated(Clock(s));
    UnrelatedThen(s, Clock(s), Schedule(Clock(s)));
  }

  predicate Related(e: Event) {
    e.Trap? && (e.call.Fork? || e.call.Wait? || e.call.Exit?)
  }

  lemma StepUnrelated(s: State, e: Event)
    requires Inv(s) && Defined(s, e) && !Related(e)
    ensures Unrelated(s, Step(s, e))
  {
    match e
    case Interrupt => TickUnrelated(s);
    case Trap(c) =>
      Frames.EnterKeeps(s, c);
      EnterUnrelated(s, c);
      CallUnrelated(Enter(s, c), c);
      UnrelatedThen(s, Enter(s, c), Perform(Enter(s, c), c));
  }

  // ----- the family tree

  /** Children lists and parent links say the same, and no parent is gone. */
  ghost predicate Tree(s: State) {
    && (forall p: Pid, c: Pid :: Kid(s, p, c) ==> At(s, c).parent == Some(p))
    && (forall c: Pid :: c in s.procs && s.procs[c].parent.Some? ==> Kid(s, s.procs[c].parent.value, c))
  }

  /** e is no exit of a process that still has children. */
  predicate Childless(s: State, e: Event) {
    e.Trap? && e.call.Exit? ==> Me(s).children == []
  }

  lemma UnrelatedTree(s: State, t: State)
    requires Unrelated(s, t)
    ensures Tree(t) <==> Tree(s)
  { }

  lemma ForkTree(s: State)
    requires Places(s) && Family(s) && s.running.Some? && Tree(s)
    ensures Tree(DoFork(s))
  {
    var t := DoFork(s);
    RunnerActive(s);
    assert s.lastPid !in s.procs;
    assert t.procs.Keys == s.procs.Keys + {s.lastPid};
    assert forall p: Pid, k: Pid :: Kid(t, p, k) <==> Kid(s, p, k) || (p == Cur(s) && k == s.lastPid);
    assert forall k: Pid :: k in s.procs ==> At(t, k).parent == At(s, k).parent;
  }

  lemma ReapTree(s: State, c: Pid, hasCell: bool)
    requires Family(s) && Tree(s) && Kid(s, Cur(s), c) && c != Cur(s) && IsZombie(s, c)
    ensures Tree(Reap(s, c, hasCell))
  {
    var t := Reap(s, c, hasCell);
    assert t.procs.Keys == s.procs.Keys - {c};
    forall p, k
      ensures Kid(t, p, k) <==> Kid(s, p, k) && k != c
    { }
    assert forall k: Pid :: k in t.procs ==> At(t, k).parent == At(s, k).parent;
  }

  lemma SuspendWaitTree(s: State)
    requires Places(s) && s.running.Some? && Tree(s)
    ensures Tree(Dispatch(Suspend(s), false))
  {
    var t := Dispatch(Suspend(s), false);
    RunnerActive(s);
    assert t.procs.Keys == s.procs.Keys;
    assert forall p: Pid, k: Pid :: Kid(t, p, k) <==> Kid(s, p, k);
    assert forall k: Pid :: At(t, k).parent == At(s, k).parent;
  }

  lemma WaitTree(s: State, pid: int, hasCell: bool)
    requires Inv(s) && s.running.Some? && Tree(s)
    ensures Tree(DoWait(s, pid, hasCell))
  {
    RunnerActive(s);
    if Me(s).children == [] {
      ReturnUnrelated(s, DSOS_EWAIT);
      UnrelatedTree(s, Return(s, DSOS_EWAIT));
    } else {
      var c := Scan(s, Me(s).children, pid);
      Processes.ScanFinds(s, Me(s).children, pid);
      assert Kid(s, Cur(s), c);
      if At(s, c).status == Zombie {
        ReapTree(s, c, hasCell);
      } else {
        SuspendWaitTree(s);
      }
    }
  }

  /** What an exit leaves of the lists. */
  ghost predicate Departed(s: State, t: State) {
    var r := Cur(s);
    && t.procs.Keys <= s.procs.Keys && t.lastPid == s.lastPid
    && (forall k: Pid :: k in s.procs && k != r ==> k in t.procs)
    && (forall k: Pid :: k in t.procs ==> At(t, k).parent == At(s, k).parent)
    && (forall k: Pid :: k in t.procs && k != r ==> At(t, k).exitValue == At(s, k).exitValue)
    && (forall q: Pid, k: Pid :: Kid(t, q, k) <==>
          q != r && (k == r ==> r in t.procs) && (Kid(s, q, k) || (q == INIT && Kid(s, r, k))))
  }

  lemma DepartFacts(s: State, value: int)
    requires Inv(s) && s.running.Some? && Cur(s) != INIT
    ensures var u := Depart(s, value);
      && u.procs.Keys == s.procs.Keys && u.lastPid == s.lastPid && Cur(u) == Cur(s) && u.ready == s.ready && u.running == s.running
      && (forall k: Pid :: At(u, k).parent == At(s, k).parent && At(u, k).status == At(s, k).status && At(u, k).call == At(s, k).call)
      && (forall k: Pid :: k != Cur(s) ==> At(u, k).exitValue == At(s, k).exitValue)
      && At(u, Cur(s)).exitValue == value
      && (forall q: Pid, k: Pid :: Kid(u, q, k) <==> q != Cur(s) && (Kid(s, q, k) || (q == INIT && Kid(s, Cur(s), k))))
  {
    RunnerActive(s);
    Processes.DepartKids(s, value);
    DepartRest(s, value);
  }

  lemma DepartRest(s: State, value: int)
    requires Cur(s) != INIT && Cur(s) in s.procs && INIT in s.procs
    ensures var u := Depart(s, value);
      && Cur(u) == Cur(s) && u.ready == s.ready && u.running == s.running && u.lastPid == s.lastPid
      && (forall k: Pid :: At(u, k).status == At(s, k).status && At(u, k).call == At(s, k).call)
      && (forall k: Pid :: k != Cur(s) ==> At(u, k).exitValue == At(s, k).exitValue)
      && At(u, Cur(s)).exitValue == value
  { }

  lemma BuryFacts(s: State, value: int)
    requires Inv(s) && s.running.Some? && Cur(s) != INIT
    ensures var t := Dispatch(Bury(Depart(s, value)), true);
      && Departed(s, t) && t.procs.Keys == s.procs.Keys
      && (forall k: Pid :: IsZombie(t, k) <==> IsZombie(s, k) || k == Cur(s))
      && (forall k: Pid :: InWaitCall(t, k) <==> InWaitCall(s, k))
      && (forall k: Pid :: InWaitCall(s, k) ==> At(t, k).call == At(s, k).call)
      && At(t, Cur(s)).exitValue == value
  {
    var u := Depart(s, value);
    RunnerActive(s);
    DepartFacts(s, value);
    BuryDispatchFacts(u);
  }

  lemma BuryDispatchFacts(s: State)
    requires Cur(s) in s.procs && Me(s).status != Waiting && Cur(s) !in s.ready
    requires s.ready != [] ==> !Dead(s, s.ready[0]) && At(s, s.ready[0]).status != Waiting
    ensures var t := Dispatch(Bury(s), true);
      && t.procs.Keys == s.procs.Keys && t.lastPid == s.lastPid
      && (forall k: Pid :: At(t, k).parent == At(s, k).parent && At(t, k).exitValue == At(s, k).exitValue
                           && At(t, k).call == At(s, k).call && At(t, k).children == At(s, k).children)
      && (forall q: Pid, k: Pid :: Kid(t, q, k) <==> Kid(s, q, k))
      && (forall k: Pid :: IsZombie(t, k) <==> IsZombie(s, k) || k == Cur(s))
      && (forall k: Pid :: InWaitCall(t, k) <==> InWaitCall(s, k))
  { }

  lemma DeliverFacts(s: State, value: int, p: Pid)
    requires Inv(s) && s.running.Some? && Cur(s) != INIT && Me(s).parent == Some(p)
    requires p in s.procs && AwaitsExitOf(s, p, Cur(s))
    ensures var t := Deliver(Depart(s, value), p);
      && Departed(s, t) && Cur(s) !in t.procs && Kid(s, p, Cur(s))
      && (forall k: Pid :: IsZombie(t, k) <==> IsZombie(s, k))
      && (forall k: Pid :: InWaitCall(t, k) <==> InWaitCall(s, k) && k != p)
      && (forall k: Pid :: InWaitCall(t, k) ==> At(t, k).call == At(s, k).call)
      && t.running == Some(p) && At(t, p).call == At(s, p).call && At(t, p).ret == Cur(s)
      && (At(s, p).call.value.hasCell ==> At(t, p).cell == value)
  {
    RunnerActive(s);
    OnlyParentLists(s, p);
    DeliveredRest(s, value, p);
    Processes.DeliveredKids(s, value, p);
    DeliveredIsDeparted(s, Deliver(Depart(s, value), p));
  }

  lemma DeliveredRest(s: State, value: int, p: Pid)
    requires Places(s) && s.running.Some? && Cur(s) != INIT && p in s.procs && p != Cur(s) && AwaitsExitOf(s, p, Cur(s))
    requires Me(s).status != Waiting && Me(s).status != Zombie
    ensures var t := Deliver(Depart(s, value), p);
      && t.procs.Keys == s.procs.Keys - {Cur(s)}
      && (forall k: Pid :: k in t.procs ==> At(t, k).call == At(s, k).call && At(t, k).exitValue == At(s, k).exitValue)
      && (forall k: Pid :: IsZombie(t, k) <==> IsZombie(s, k))
      && (forall k: Pid :: InWaitCall(t, k) <==> InWaitCall(s, k) && k != p)
      && t.running == Some(p) && At(t, p).ret == Cur(s)
      && (At(s, p).call.value.hasCell ==> At(t, p).cell == value)
  {
    Processes.DepartPlaces(s, value);
    Frames.HeadAlive(s);
    DepartRest(s, value);
    DeliverRest(Depart(s, value), p);
  }

  lemma DeliveredIsDeparted(s: State, t: State)
    requires t.procs.Keys == s.procs.Keys - {Cur(s)} && t.lastPid == s.lastPid
    requires forall k: Pid :: k in t.procs ==> At(t, k).parent == At(s, k).parent && At(t, k).exitValue == At(s, k).exitValue
    requires forall q: Pid, k: Pid ::
               Kid(t, q, k) <==> q != Cur(s) && k != Cur(s) && (Kid(s, q, k) || (q == INIT && Kid(s, Cur(s), k)))
    ensures Departed(s, t)
  { }

  lemma DeliverRest(s: State, p: Pid)
    requires Cur(s) in s.procs && p in s.procs && p != Cur(s) && Me(s).status != Waiting && Me(s).status != Zombie
    requires AwaitsExitOf(s, p, Cur(s))
    ensures var t := Deliver(s, p);
      && t.procs.Keys == s.procs.Keys - {Cur(s)}
      && (forall k: Pid :: k in t.procs ==> At(t, k).call == At(s, k).call && At(t, k).exitValue == At(s, k).exitValue)
      && (forall k: Pid :: IsZombie(t, k) <==> IsZombie(s, k))
      && (forall k: Pid :: InWaitCall(t, k) <==> InWaitCall(s, k) && k != p)
      && t.running == Some(p) && At(t, p).ret == Cur(s)
      && (At(s, p).call.value.hasCell ==> At(t, p).cell == Me(s).exitValue)
  { }

  /** An exit keeps the tree if and only if the process has no children left. */
  lemma ExitTree(s: State, value: int)
    requires Inv(s) && s.running.Some? && Me(s).parent.Some? && Me(s).parent.value in s.procs && Tree(s)
    ensures Tree(DoExit(s, value)) <==> Me(s).children == []
  {
    var r, p, t := Cur(s), ParentOf(s, Cur(s)), DoExit(s, value);
    RunnerActive(s);
    Processes.ParentIsOther(s);
    if AwaitsExitOf(s, p, r) {
      DeliverFacts(s, value, p);
    } else {
      BuryFacts(s, value);
    }
    DepartedTree(s, t);
  }

  lemma DepartedTree(s: State, t: State)
    requires Departed(s, t) && Tree(s) && Cur(s) != INIT && Cur(s) in s.procs
    requires Cur(s) !in t.procs ==> !Kid(s, Cur(s), Cur(s))
    ensures Tree(t) <==> Me(s).children == []
  {
    if Me(s).children != [] {
      var k := Me(s).children[0];
      assert Kid(s, Cur(s), k);
      assert Kid(t, INIT, k);
    } else {
      assert forall q: Pid, k: Pid :: Kid(t, q, k) <==> Kid(s, q, k) && (k == Cur(s) ==> k in t.procs) && q != Cur(s);
      assert forall k: Pid :: !Kid(s, Cur(s), k);
    }
  }

  /** The family tree survives every step, except an exit that leaves children behind: their parent links then name a
      process that has exited. */
  lemma TreeExactly(s: State, e: Event)
    requires Inv(s) && Defined(s, e) && Tree(s)
    ensures Tree(Step(s, e)) <==> Childless(s, e)
  {
    if !Related(e) {
      StepUnrelated(s, e);
      UnrelatedTree(s, Step(s, e));
    } else {
      var u := Enter(s, e.call);
      Frames.EnterKeeps(s, e.call);
      EnterUnrelated(s, e.call);
      UnrelatedTree(s, u);
      RelatedTree(u, e.call);
    }
  }

  lemma RelatedTree(s: State, c: Call)
    requires Inv(s) && s.running.Some? && Provided(s, c) && (c.Fork? || c.Wait? || c.Exit?) && Tree(s)
    ensures Tree(Perform(s, c)) <==> (c.Exit? ==> Me(s).children == [])
  {
    match c
    case Fork => ForkTree(s);
    case Wait(pid, hasCell) => WaitTree(s, pid, hasCell);
    case Exit(value) => ExitTree(s, value);
  }

  // ----- nobody misses an exit

  /** Nobody is blocked in a wait that an earlier exit of one of its children should have ended. */
  ghost predicate NoMissedExit(s: State) {
    forall p: Pid, c: Pid :: Kid(s, p, c) && AwaitsExitOf(s, p, c) ==> !IsZombie(s, c)
  }

  lemma UnrelatedMissed(s: State, t: State)
    requires Unrelated(s, t)
    ensures NoMissedExit(t) <==> NoMissedExit(s)
  {
    assert forall p: Pid, c: Pid :: Kid(t, p, c) <==> Kid(s, p, c);
    assert forall p: Pid, c: Pid :: AwaitsExitOf(t, p, c) <==> AwaitsExitOf(s, p, c);
  }

  lemma ForkMissed(s: State)
    requires Places(s) && s.running.Some? && NoMissedExit(s)
    ensures NoMissedExit(DoFork(s))
  {
    var t := DoFork(s);
    RunnerActive(s);
    assert s.lastPid !in s.procs;
    assert t.procs.Keys == s.procs.Keys + {s.lastPid};
    forall p, c | Kid(t, p, c) && AwaitsExitOf(t, p, c)
      ensures !IsZombie(t, c)
    {
      assert Kid(s, p, c) && AwaitsExitOf(s, p, c);
    }
  }

  lemma ReapMissed(s: State, c: Pid, hasCell: bool)
    requires NoMissedExit(s) && Cur(s) in s.procs && Me(s).status != Waiting && c != Cur(s)
    ensures NoMissedExit(Reap(s, c, hasCell))
  {
    var t := Reap(s, c, hasCell);
    assert t.procs.Keys == s.procs.Keys - {c};
    forall p, k | Kid(t, p, k) && AwaitsExitOf(t, p, k)
      ensures !IsZombie(t, k)
    {
      assert Kid(s, p, k) && AwaitsExitOf(s, p, k);
    }
  }

  /** A wait blocks only when the child it is for has not exited. */
  lemma SuspendWaitMissed(s: State, pid: int)
    requires Places(s) && Family(s) && s.running.Some? && NoMissedExit(s) && InWait(s, Cur(s)) && Me(s).call.value.pid == pid
    requires Me(s).children != [] && !IsZombie(s, Scan(s, Me(s).children, pid))
    ensures NoMissedExit(Dispatch(Suspend(s), false))
  {
    var t := Dispatch(Suspend(s), false);
    RunnerActive(s);
    Processes.ScanFinds(s, Me(s).children, pid);
    assert Kid(s, Cur(s), Scan(s, Me(s).children, pid));
    assert t.procs.Keys == s.procs.Keys;
    forall p, c | Kid(t, p, c) && AwaitsExitOf(t, p, c)
      ensures !IsZombie(t, c)
    {
      assert Kid(s, p, c);
      if p != Cur(s) {
        assert AwaitsExitOf(s, p, c);
      }
    }
  }

  lemma WaitMissed(s: State, pid: int, hasCell: bool)
    requires Inv(s) && s.running.Some? && NoMissedExit(s) && Me(s).call == Some(Wait(pid, hasCell))
    ensures NoMissedExit(DoWait(s, pid, hasCell))
  {
    RunnerActive(s);
    if Me(s).children == [] {
      ReturnUnrelated(s, DSOS_EWAIT);
      UnrelatedMissed(s, Return(s, DSOS_EWAIT));
    } else {
      var c := Scan(s, Me(s).children, pid);
      Processes.ScanFinds(s, Me(s).children, pid);
      assert Kid(s, Cur(s), c);
      if At(s, c).status == Zombie {
        ReapMissed(s, c, hasCell);
      } else {
        SuspendWaitMissed(s, pid);
      }
    }
  }

  /** An exit that somebody blocked in a wait does not hear of: the caller is on the list of a process other than the parent
      it was born to, or it hands a child that exited before to init. */
  ghost predicate Unheard(s: State, q: Pid, c: Pid) {
    && AwaitsExitOf(s, q, c)
    && !(q == ParentOf(s, Cur(s)) && AwaitsExitOf(s, q, Cur(s)))
    && ((c == Cur(s) && Kid(s, q, c)) || (q == INIT && Kid(s, Cur(s), c) && IsZombie(s, c)))
  }

  ghost predicate Misses(s: State, e: Event) {
    e.Trap? && e.call.Exit? && SomeUnheard(s)
  }

  lemma BuriedMissed(s: State, t: State)
    requires NoMissedExit(s) && Departed(s, t) && Cur(s) in t.procs && !IsZombie(s, Cur(s)) && Me(s).status != Waiting
    requires !AwaitsExitOf(s, ParentOf(s, Cur(s)), Cur(s)) && !Kid(s, Cur(s), Cur(s))
    requires forall k: Pid :: IsZombie(t, k) <==> IsZombie(s, k) || k == Cur(s)
    requires forall k: Pid :: InWaitCall(t, k) <==> InWaitCall(s, k)
    requires forall k: Pid :: InWaitCall(s, k) ==> At(t, k).call == At(s, k).call
    ensures NoMissedExit(t) <==> forall q: Pid, c: Pid :: !Unheard(s, q, c)
  {
    assert forall q: Pid, c: Pid :: AwaitsExitOf(t, q, c) <==> AwaitsExitOf(s, q, c);
    assert forall q: Pid, c: Pid :: Unheard(s, q, c) <==> Kid(t, q, c) && AwaitsExitOf(t, q, c) && IsZombie(t, c);
  }

  lemma DeliveredMissed(s: State, t: State, p: Pid)
    requires NoMissedExit(s) && Departed(s, t) && Cur(s) !in t.procs && !IsZombie(s, Cur(s)) && Me(s).status != Waiting
    requires p == ParentOf(s, Cur(s)) && AwaitsExitOf(s, p, Cur(s))
    requires forall q :: Kid(s, q, Cur(s)) ==> q == p
    requires forall k: Pid :: IsZombie(t, k) <==> IsZombie(s, k)
    requires forall k: Pid :: InWaitCall(t, k) <==> InWaitCall(s, k) && k != p
    requires forall k: Pid :: InWaitCall(t, k) ==> At(t, k).call == At(s, k).call
    ensures NoMissedExit(t) <==> forall q: Pid, c: Pid :: !Unheard(s, q, c)
  {
    assert forall q: Pid, c: Pid :: AwaitsExitOf(t, q, c) <==> AwaitsExitOf(s, q, c) && q != p;
    assert forall q: Pid, c: Pid :: Unheard(s, q, c) <==> Kid(t, q, c) && AwaitsExitOf(t, q, c) && IsZombie(t, c);
  }

  lemma OnlyParentLists(s: State, p: Pid)
    requires Family(s) && !Dead(s, Cur(s)) && Me(s).parent == Some(p) && !Dead(s, p)
    ensures Kid(s, p, Cur(s)) && forall q :: Kid(s, q, Cur(s)) ==> q == p
  {
    assert Listed(s, Cur(s));
  }

  lemma ExitMissed(s: State, value: int)
    requires Inv(s) && s.running.Some? && Me(s).parent.Some? && Me(s).parent.value in s.procs && NoMissedExit(s)
    ensures NoMissedExit(DoExit(s, value)) <==> forall q: Pid, c: Pid :: !Unheard(s, q, c)
  {
    var p := ParentOf(s, Cur(s));
    RunnerActive(s);
    Processes.ParentIsOther(s);
    if AwaitsExitOf(s, p, Cur(s)) {
      DeliverFacts(s, value, p);
      OnlyParentLists(s, p);
      DeliveredMissed(s, DoExit(s, value), p);
    } else {
      BuryFacts(s, value);
      BuriedMissed(s, DoExit(s, value));
    }
  }

  lemma EnterMisses(s: State, e: Event)
    requires Places(s) && s.running.Some? && e.Trap? && e.call.Exit?
    ensures Misses(s, e) <==> SomeUnheard(Enter(s, e.call))
  {
    RunnerActive(s);
    var u := Enter(s, e.call);
    assert forall q: Pid, c: Pid :: Unheard(u, q, c) <==> Unheard(s, q, c);
  }

  /** One step: nobody misses an exit, except by the exits described above. */
  lemma MissesExactly(s: State, e: Event)
    requires Inv(s) && Defined(s, e) && NoMissedExit(s)
    ensures NoMissedExit(Step(s, e)) <==> !Misses(s, e)
  {
    if !Related(e) {
      StepUnrelated(s, e);
      UnrelatedMissed(s, Step(s, e));
    } else {
      var u := Enter(s, e.call);
      Frames.EnterKeeps(s, e.call);
      EnterUnrelated(s, e.call);
      UnrelatedMissed(s, u);
      RelatedMissed(u, e.call);
      if e.call.Exit? {
        EnterMisses(s, e);
      }
    }
  }

  ghost predicate SomeUnheard(s: State) {
    exists q: Pid, c: Pid :: Unheard(s, q, c)
  }

  lemma RelatedMissed(s: State, c: Call)
    requires Inv(s) && s.running.Some? && Provided(s, c) && (c.Fork? || c.Wait? || c.Exit?) && NoMissedExit(s)
    requires Me(s).call == Some(c)
    ensures NoMissedExit(Perform(s, c)) <==> !(c.Exit? && SomeUnheard(s))
  {
    match c
    case Fork => ForkMissed(s);
    case Wait(pid, hasCell) => WaitMissed(s, pid, hasCell);
    case Exit(value) => ExitMissed(s, value);
  }

  lemma ChildlessIsHeard(s: State, e: Event)
    requires Inv(s) && Tree(s) && Childless(s, e) && s.running.Some?
    ensures !Misses(s, e)
  { }

  /** In every run in which processes exit only after their children are gone, a process blocked in wait for any child never
      has a child that has exited, one blocked in wait for a certain child never has that child exited, and children lists
      and parent links agree. */
  lemma {:induction false} NoLostExit(s: State, es: seq<Event>)
    requires Inv(s) && Tree(s) && NoMissedExit(s)
    requires ValidRun(s, es) && Runs.Along(s, es, Childless)
    ensures Tree(Run(s, es)) && NoMissedExit(Run(s, es))
    decreases |es|
  {
    if es != [] {
      TreeExactly(s, es[0]);
      ChildlessIsHeard(s, es[0]);
      MissesExactly(s, es[0]);
      Runs.StepKeeps(s, es[0]);
      NoLostExit(Step(s, es[0]), es[1..]);
    }
  }

  lemma BootExits()
    ensures Inv(Boot()) && Tree(Boot()) && NoMissedExit(Boot())
  {
    BootInv();
  }

  /** From the start. */
  lemma ExitsFromBoot(es: seq<Event>)
    requires ValidRun(Boot(), es) && Runs.Along(Boot(), es, Childless)
    ensures Tree(Run(Boot(), es)) && NoMissedExit(Run(Boot(), es))
  {
    BootExits();
    NoLostExit(Boot(), es);
  }

  /** After every run from the start the parent that an exit wakes is found on the waiting list, once, and on no other; if it is
      the parent of the exiting process, it has it on its list of children. */
  lemma AwaitedIsWaiting(es: seq<Event>, p: Pid, c: Pid)
    requires ValidRun(Boot(), es) && AwaitsExitOf(Run(Boot(), es), p, c)
    ensures var t := Run(Boot(), es);
      && p in t.waiting && NoDup(t.waiting) && t.running != Some(p) && p !in t.ready && p !in t.zombie
      && (c in t.procs && t.procs[c].parent == Some(p) ==> Kid(t, p, c))
  {
    BootInv();
    Runs.RunKeeps(Boot(), es);
    var t := Run(Boot(), es);
    assert !Active(t, p);
    if c in t.procs {
      assert Listed(t, c);
    }
  }
}
