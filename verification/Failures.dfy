/** Runs from the start in which a guarantee that the conditions proved elsewhere protect is lost. */
module Failures {
  import opened Lists
  import opened Machine
  import opened Invariants
  import Runs
  import Waiters
  import Exits
  import Reaping
  import Links
  import Descriptors

  lemma Extend(s: State, es: seq<Event>, e: Event) returns (longer: seq<Event>)
    requires ValidRun(s, es) && Defined(Run(s, es), e)
    ensures ValidRun(s, longer) && Run(s, longer) == Step(Run(s, es), e)
  {
    longer := es + [e];
    Runs.RunAppend(s, es, [e]);
    Runs.RunOne(Run(s, es), e);
  }

  // ----- a queue destroyed under its reader

  ghost predicate Forked(s: State) {
    && s.running == Some(0) && s.ready == [1] && s.waiting == [] && s.timers == [] && 0 in s.procs && 1 in s.procs
    && s.procs[0].descriptors == [] && s.procs[0].lastFd == 0 && s.queues == map[]
    && s.pcbPtrFree > 0 && s.mqs.pool.free != [] && !Links.Carries(s.mqs.links, NextBlock(s.mqs))
    && s.descPool.free != [] && s.ptrPool == s.descPool
  }

  ghost predicate Opened(s: State) {
    && s.running == Some(0) && s.ready == [1] && s.waiting == [] && s.timers == [] && 0 in s.procs && 1 in s.procs
    && s.queues.Keys == {7} && s.pcbPtrFree > 0
    && s.queues[7].messages == [] && s.queues[7].readers == [] && |s.queues[7].entries| == 1
    && |s.procs[0].descriptors| == 1 && s.procs[0].descriptors[0].fd == 0
    && s.procs[0].descriptors[0].ptr == s.queues[7].entries[0].block
  }

  /** Queue 7 is open to nobody; p runs and q is ready. */
  ghost predicate Unheld(s: State, p: Pid, q: Pid) {
    && s.running == Some(p) && s.ready == [q] && s.waiting == [] && s.timers == [] && 0 in s.procs && 1 in s.procs
    && s.queues.Keys == {7} && s.pcbPtrFree > 0
    && s.queues[7].entries == [] && s.queues[7].messages == [] && s.queues[7].readers == []
  }

  ghost predicate ReaderBlocked(s: State) {
    s.running == Some(0) && s.waiting == [1] && ReadsFrom(s, 1, 7) && 0 in s.procs && s.queues.Keys == {7} && s.queues[7].entries == []
  }

  lemma BootForks()
    ensures Defined(Boot(), Trap(Fork)) && Forked(Step(Boot(), Trap(Fork)))
  { }

  lemma OpenStep(s: State)
    requires Forked(s)
    ensures var e := Trap(Open(7, DSOS_CREATE)); Defined(s, e) && Opened(Step(s, e))
  { }

  lemma CloseStep(s: State)
    requires Opened(s)
    ensures Defined(s, Trap(Close(0))) && Unheld(Step(s, Trap(Close(0))), 0, 1)
  {
    var es := s.queues[7].entries;
    assert es == [es[0]] && s.procs[0].descriptors[0].ptr == es[0].block;
    DropOnly(es[0]);
    assert Ptrs([s.procs[0].descriptors[0]]) == [es[0].block];
  }

  lemma DropOnly(e: DescriptorPtr)
    ensures DropEntries([e], [e.block]) == []
  { }

  lemma PreemptStep(s: State)
    requires Unheld(s, 0, 1)
    ensures Defined(s, Trap(Preempt)) && Unheld(Step(s, Trap(Preempt)), 1, 0)
  { }

  lemma ReadStep(s: State)
    requires Unheld(s, 1, 0)
    ensures Defined(s, Trap(Read(7, 64))) && ReaderBlocked(Step(s, Trap(Read(7, 64))))
  { }

  lemma DestroyStep(s: State)
    requires ReaderBlocked(s)
    ensures Defined(s, Trap(Destroy(7))) && !Waiters.NoneStranded(Step(s, Trap(Destroy(7))))
  {
    Waiters.StrandedBy(Step(s, Trap(Destroy(7))), Step(s, Trap(Destroy(7))), 1, 7);
  }

  /** The first child of init reads a queue it has not opened, and init, which has closed it, destroys it under the child. */
  lemma ReaderIsStranded()
    ensures exists es :: ValidRun(Boot(), es) && !Waiters.NoneStranded(Run(Boot(), es))
  {
    BootForks();
    var es := Extend(Boot(), [], Trap(Fork));
    OpenStep(Run(Boot(), es));
    es := Extend(Boot(), es, Trap(Open(7, DSOS_CREATE)));
    CloseStep(Run(Boot(), es));
    es := Extend(Boot(), es, Trap(Close(0)));
    PreemptStep(Run(Boot(), es));
    es := Extend(Boot(), es, Trap(Preempt));
    ReadStep(Run(Boot(), es));
    es := Extend(Boot(), es, Trap(Read(7, 64)));
    DestroyStep(Run(Boot(), es));
    es := Extend(Boot(), es, Trap(Destroy(7)));
  }

  // ----- an exit that its new parent misses

  ghost predicate StageFork(s: State) {
    && s.running == Some(0) && s.ready == [1] && s.timers == [] && s.procs.Keys == {0, 1} && s.lastPid == 2
    && s.procs[0].children == [1] && s.procs[1].children == [] && s.procs[1].parent == Some(0)
    && s.pcbFree > 2 && s.pcbPtrFree > 2
  }

  ghost predicate StagePreempt(s: State) {
    && s.running == Some(1) && s.ready == [0] && s.procs.Keys == {0, 1} && s.lastPid == 2
    && s.procs[0].children == [1] && s.procs[1].children == [] && s.procs[1].parent == Some(0)
    && s.procs[0].status == Ready
    && s.pcbFree > 2 && s.pcbPtrFree > 2
  }

  ghost predicate StageGrandchild(s: State) {
    && s.running == Some(1) && s.ready == [0, 2] && s.procs.Keys == {0, 1, 2} && s.lastPid == 3
    && s.procs[0].children == [1] && s.procs[1].children == [2] && s.procs[1].parent == Some(0) && s.procs[2].parent == Some(1)
    && s.procs[2].children == [] && s.procs[0].status == Ready && s.procs[2].status == Ready
    && s.pcbFree > 1 && s.pcbPtrFree > 1
  }

  ghost predicate StageOrphan(s: State) {
    && s.running == Some(0) && s.ready == [2] && s.procs.Keys == {0, 1, 2} && s.lastPid == 3
    && s.procs[0].children == [1, 2] && s.procs[1].status == Zombie && s.procs[2].parent == Some(1)
    && s.procs[2].children == [] && s.procs[0].status == Running && s.procs[2].status == Ready
    && s.pcbFree > 1 && s.pcbPtrFree > 1
  }

  ghost predicate StageIdle(s: State) {
    && s.running == Some(0) && s.ready == [2, 3] && s.procs.Keys == {0, 1, 2, 3}
    && s.procs[0].children == [1, 2, 3] && s.procs[1].status == Zombie && s.procs[2].parent == Some(1)
    && s.procs[2].children == [] && s.procs[0].status == Running && s.procs[2].status == Ready
  }

  ghost predicate StageWait(s: State) {
    && s.running == Some(2) && s.ready == [3] && s.procs.Keys == {0, 1, 2, 3}
    && s.procs[0].children == [1, 2, 3] && s.procs[1].status == Zombie && s.procs[2].parent == Some(1)
    && s.procs[2].children == [] && s.procs[0].status == Waiting && s.procs[0].call == Some(Wait(2, true))
  }

  lemma ForkStage()
    ensures Defined(Boot(), Trap(Fork)) && StageFork(Step(Boot(), Trap(Fork)))
  { }

  lemma PreemptStage(s: State)
    requires StageFork(s)
    ensures Defined(s, Trap(Preempt)) && StagePreempt(Step(s, Trap(Preempt)))
  { }

  lemma GrandchildStage(s: State)
    requires StagePreempt(s)
    ensures Defined(s, Trap(Fork)) && StageGrandchild(Step(s, Trap(Fork)))
  { }

  lemma OrphanStage(s: State)
    requires StageGrandchild(s)
    ensures Defined(s, Trap(Exit(5))) && StageOrphan(Step(s, Trap(Exit(5))))
  { }

  lemma IdleStage(s: State)
    requires StageOrphan(s)
    ensures Defined(s, Trap(Fork)) && StageIdle(Step(s, Trap(Fork)))
  { }

  lemma WaitStage(s: State)
    requires StageIdle(s)
    ensures Defined(s, Trap(Wait(2, true))) && StageWait(Step(s, Trap(Wait(2, true))))
  {
    ScanSecond(s);
    ScanSecond(Enter(s, Wait(2, true)));
  }

  lemma ScanSecond(s: State)
    ensures Scan(s, [1, 2, 3], 2) == 2
  { }

  lemma MissedStage(s: State)
    requires StageWait(s)
    ensures Defined(s, Trap(Exit(9))) && !Exits.NoMissedExit(Step(s, Trap(Exit(9))))
  {
    var t := Step(s, Trap(Exit(9)));
    assert Kid(t, 0, 2) && AwaitsExitOf(t, 0, 2) && Exits.IsZombie(t, 2);
  }

  /** Process 1 exits before its child 2, which init inherits; init waits for it and is not told when it exits, because the
      exit looks only at the parent it was born to. */
  lemma InheritedExitIsMissed()
    ensures exists es :: ValidRun(Boot(), es) && !Exits.NoMissedExit(Run(Boot(), es))
  {
    ForkStage();
    var es := Extend(Boot(), [], Trap(Fork));
    PreemptStage(Run(Boot(), es));
    es := Extend(Boot(), es, Trap(Preempt));
    GrandchildStage(Run(Boot(), es));
    es := Extend(Boot(), es, Trap(Fork));
    OrphanStage(Run(Boot(), es));
    es := Extend(Boot(), es, Trap(Exit(5)));
    IdleStage(Run(Boot(), es));
    es := Extend(Boot(), es, Trap(Fork));
    WaitStage(Run(Boot(), es));
    es := Extend(Boot(), es, Trap(Wait(2, true)));
    MissedStage(Run(Boot(), es));
    es := Extend(Boot(), es, Trap(Exit(9)));
  }
  // ----- a wait for a pid that is no child

  lemma ExitStage(s: State)
    requires StagePreempt(s)
    ensures var t := Step(s, Trap(Exit(5)));
      && Defined(s, Trap(Exit(5)))
      && t.running == Some(0) && t.procs.Keys == {0, 1} && t.procs[0].children == [1] && t.procs[1].status == Zombie
      && t.procs[1].descriptors == s.procs[1].descriptors && t.procs[1].exitValue == 5
  { }

  lemma WrongStage(s: State)
    requires Inv(s) && s.running == Some(0) && s.procs.Keys == {0, 1} && s.procs[0].children == [1] && s.procs[1].status == Zombie
    ensures Defined(s, Trap(Wait(77, true)))
    ensures Reaping.ReportOf(s, Trap(Wait(77, true))) == Some(Reaping.Report(0, 1, Some(s.procs[1].exitValue)))
  {
    Reaping.WaitReportIs(s, 77, true);
  }

  /** Init waits for process 77, which never was, and is told of its child 1, which has exited with 5. */
  lemma WrongChildIsReported()
    ensures exists es :: ValidRun(Boot(), es) && Defined(Run(Boot(), es), Trap(Wait(77, true)))
                         && Reaping.ReportOf(Run(Boot(), es), Trap(Wait(77, true))) == Some(Reaping.Report(0, 1, Some(5)))
  {
    ForkStage();
    var es := Extend(Boot(), [], Trap(Fork));
    PreemptStage(Run(Boot(), es));
    es := Extend(Boot(), es, Trap(Preempt));
    ExitStage(Run(Boot(), es));
    es := Extend(Boot(), es, Trap(Exit(5)));
    BootInv();
    Runs.RunKeeps(Boot(), es);
    WrongStage(Run(Boot(), es));
  }

  /** Init waits for process 77 while its child runs, and is blocked for good. */
  lemma NobodyIsAwaited()
    ensures exists es :: ValidRun(Boot(), es) && Reaping.WaitsForNobody(Run(Boot(), es), 0)
  {
    ForkStage();
    var es := Extend(Boot(), [], Trap(Fork));
    var s := Run(Boot(), es);
    BootInv();
    Runs.RunKeeps(Boot(), es);
    BlocksStage(s);
    Reaping.BlocksForNobody(s, 77, true);
    es := Extend(Boot(), es, Trap(Wait(77, true)));
  }

  lemma BlocksStage(s: State)
    requires StageFork(s) && Inv(s)
    ensures Defined(s, Trap(Wait(77, true))) && Me(s).children == [1] && Scan(s, [1], 77) == 1 && !Exits.IsZombie(s, 1) && Cur(s) == 0
  {
    assert Active(s, 1);
  }

  // ----- a process reaped with an open descriptor

  /** Process 1 runs with queue 7 open, and has not exited. */
  ghost predicate HoldsQueue(s: State) {
    StagePreempt(s) && |s.procs[1].descriptors| == 1 && s.procs[1].descriptors[0].mq == 7
  }

  lemma FirstStage()
    ensures var s := Step(Boot(), Trap(Fork));
      s.queues == map[] && !Links.Carries(s.mqs.links, NextBlock(s.mqs)) && s.mqs.pool.free != [] && s.descPool.free != []
      && s.procs[1].descriptors == []
  { }

  lemma SecondStage(s: State)
    requires StageFork(s) && s.procs[1].descriptors == [] && s.queues == map[] && s.mqs.pool.free != []
    requires !Links.Carries(s.mqs.links, NextBlock(s.mqs)) && s.descPool.free != []
    ensures var t := Step(s, Trap(Preempt));
      t.queues == map[] && !Links.Carries(t.mqs.links, NextBlock(t.mqs)) && t.mqs.pool.free != [] && t.descPool.free != []
      && t.procs[1].descriptors == []
  { }

  lemma OpenStage(s: State)
    requires StagePreempt(s) && s.procs[1].descriptors == [] && s.queues == map[] && s.mqs.pool.free != []
    requires !Links.Carries(s.mqs.links, NextBlock(s.mqs)) && s.descPool.free != []
    ensures Defined(s, Trap(Open(7, DSOS_CREATE))) && HoldsQueue(Step(s, Trap(Open(7, DSOS_CREATE))))
  { }

  lemma ReapStage(s: State, d: Descriptor)
    requires s.running == Some(0) && s.procs.Keys == {0, 1} && s.procs[0].children == [1] && s.procs[1].status == Zombie
    requires s.procs[1].descriptors == [d]
    ensures Defined(s, Trap(Wait(1, true))) && Descriptors.LosesHandles(s, Trap(Wait(1, true)))
    ensures Scan(s, Me(s).children, 1) == 1
  { }

  /** Process 1 opens queue 7 and exits without closing it; once init has reaped it, the queue's entry belongs to nobody, and
      the queue stays for good. */
  lemma QueueIsOrphaned()
    ensures exists es, entry :: ValidRun(Boot(), es) && Descriptors.Orphan(Run(Boot(), es), 7, entry)
  {
    ForkStage();
    FirstStage();
    var es := Extend(Boot(), [], Trap(Fork));
    PreemptStage(Run(Boot(), es));
    SecondStage(Run(Boot(), es));
    es := Extend(Boot(), es, Trap(Preempt));
    OpenStage(Run(Boot(), es));
    es := Extend(Boot(), es, Trap(Open(7, DSOS_CREATE)));
    var d := Run(Boot(), es).procs[1].descriptors[0];
    ExitStage(Run(Boot(), es));
    es := Extend(Boot(), es, Trap(Exit(5)));
    var s := Run(Boot(), es);
    assert s.procs[1].descriptors == [d];
    ReapStage(s, d);
    BootInv();
    Runs.RunKeeps(Boot(), es);
    Descriptors.ReapingOrphans(s, 1, true, d);
    es := Extend(Boot(), es, Trap(Wait(1, true)));
    assert Descriptors.Orphan(Run(Boot(), es), 7, DescriptorPtr(d.ptr, d.block));
  }
}
