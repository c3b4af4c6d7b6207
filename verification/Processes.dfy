/** The process calls keep the invariant: internal_sleep, internal_fork, internal_wait and internal_exit. */
module Processes {
  import opened Lists
  import PoolAllocator
  import opened Machine
  import opened Invariants
  import opened Frames

  // ----- sleep

  /** A running process owns no timer. */
  lemma RunnerTimerless(s: State)
    requires Places(s) && Sleepers(s) && s.running.Some?
    ensures !Me(s).hasTimer && !HasTimer(s, Cur(s))
  { }

  lemma InsertOrdered(ts: seq<Timer>, t: Timer)
    requires TimersOrdered(ts)
    requires forall i :: 0 <= i < |ts| ==> ts[i].pid != t.pid
    ensures TimersOrdered(InsertTimer(ts, t))
  { }

  lemma InsertFromPool(p: PoolAllocator.Pool, ts: seq<Timer>, t: Timer)
    requires TimerPoolOk(p, ts) && p.free != [] && t.block == p.free[0]
    ensures TimerPoolOk(p.Take(), InsertTimer(ts, t))
  { }

  lemma InsertMembers(ts: seq<Timer>, t: Timer)
    ensures forall x :: x in InsertTimer(ts, t) <==> x == t || x in ts
  { }

  lemma SleepSleepers(s: State, cycles: int)
    requires Places(s) && Sleepers(s) && s.running.Some? && s.timerPool.free != []
    requires Asleep(s, Cur(s))
    ensures Sleepers(Suspend(SetTimer(s, cycles)))
  {
    var t := Suspend(SetTimer(s, cycles));
    var mine := Timer(s.timerPool.free[0], s.time + cycles, Cur(s));
    RunnerTimerless(s);
    HeadAlive(s);
    InsertOrdered(s.timers, mine);
    InsertFromPool(s.timerPool, s.timers, mine);
    InsertMembers(s.timers, mine);
    SleepersGrow(s, t, mine);
  }

  lemma SleepersGrow(s: State, t: State, mine: Timer)
    requires TimersOfSleepers(s)
    requires forall x :: x in t.timers <==> x == mine || x in s.timers
    requires forall p :: p in t.waiting <==> p == mine.pid || p in s.waiting
    requires forall p :: At(t, p).call == At(s, p).call
    requires Asleep(s, mine.pid)
    ensures TimersOfSleepers(t)
  {
    forall i | 0 <= i < |t.timers|
      ensures t.timers[i].pid in t.waiting && Asleep(t, t.timers[i].pid)
    {
      if t.timers[i] != mine {
        assert t.timers[i] in s.timers;
      }
    }
    forall p | p in t.waiting && Asleep(t, p)
      ensures HasTimer(t, p)
    {
      if p == mine.pid {
        assert mine in t.timers;
      } else {
        assert HasTimer(s, p);
        var i :| 0 <= i < |s.timers| && s.timers[i].pid == p;
        assert s.timers[i] in t.timers;
      }
    }
  }

  lemma SetTimerFrame(s: State, cycles: int)
    requires s.timerPool.free != []
    ensures var t := SetTimer(s, cycles);
      && (Places(s) ==> Places(t)) && (Reasons(s) ==> Reasons(t))
      && (QueuesOk(s) ==> QueuesOk(t)) && (Family(s) ==> Family(t)) && (Handles(s) ==> Handles(t))
  {
    var t := SetTimer(s, cycles);
    assert forall p :: Active(t, p) <==> Active(s, p);
    if QueuesOk(s) {
      QueuesFrame(s, t);
    }
    if Family(s) {
      FamilyFrame(s, t);
    }
    if Handles(s) {
      HandlesFrame(s, t);
    }
  }

  /** Blocking leaves the queues alone; the blocked process needs a call that can block. */
  lemma SuspendQueues(s: State)
    requires Places(s) && s.running.Some?
    ensures QueuesOk(s) ==> QueuesOk(Suspend(s))
    ensures forall p :: p in Suspend(s).waiting <==> p == Cur(s) || p in s.waiting
    ensures forall p :: At(Suspend(s), p).call == At(s, p).call
  { }

  lemma SleepKeeps(s: State, cycles: int)
    requires Inv(s) && s.running.Some? && Asleep(s, Cur(s))
    ensures Inv(DoSleep(s, cycles))
  {
    if Me(s).hasTimer || s.timerPool.free == [] {
      ReturnKeeps(s, DSOS_ESLEEP);
    } else {
      SleepSleepers(s, cycles);
      var u := SetTimer(s, cycles);
      SetTimerFrame(s, cycles);
      HeadAlive(u);
      SuspendPlaces(u);
      SuspendQueues(u);
      SuspendTables(u);
      DispatchKeeps(Suspend(u), false);
    }
  }

  // ----- fork

  lemma ForkPlaces(s: State)
    requires Places(s) && s.running.Some? && s.pcbFree > 0
    ensures Places(DoFork(s))
  {
    var t := DoFork(s);
    var r := Cur(s);
    assert Active(s, r);
    assert t.procs.Keys == s.procs.Keys + {s.lastPid};
    assert forall p :: Active(t, p) <==> Active(s, p) || p == s.lastPid;
    forall p | p in s.ready || p in s.waiting || p in s.zombie
      ensures p != s.lastPid
    {
      assert p in s.ready ==> Active(s, p);
    }
  }

  lemma ForkWaiting(s: State)
    requires Places(s) && s.running.Some?
    ensures Sleepers(s) ==> Sleepers(DoFork(s))
    ensures Reasons(s) ==> Reasons(DoFork(s))
    ensures QueuesOk(s) ==> QueuesOk(DoFork(s))
  {
    var t := DoFork(s);
    HeadAlive(s);
    assert s.lastPid !in s.waiting;
    assert forall p :: p in s.waiting ==> At(t, p) == At(s, p);
    if Sleepers(s) {
      SleepersFrame(s, t);
    }
    if QueuesOk(s) {
      QueuesFrame(s, t);
    }
  }

  lemma ForkFamily(s: State)
    requires Family(s) && s.running.Some? && !Dead(s, Cur(s))
    requires forall p :: p in s.procs ==> p < s.lastPid
    ensures Family(DoFork(s))
  {
    var t := DoFork(s);
    var c := s.lastPid;
    assert t.procs.Keys == s.procs.Keys + {c};
    assert forall p, k :: Kid(t, p, k) <==> Kid(s, p, k) || (p == Cur(s) && k == c);
    assert forall p :: Dead(t, p) <==> Dead(s, p) && p != c;
    assert !Kid(s, Cur(s), c);
    forall k | k in t.procs
      ensures Listed(t, k)
    {
      if k != c {
        assert Listed(s, k);
      }
    }
  }

  lemma ForkHandles(s: State)
    requires Handles(s) && s.lastPid !in s.procs && Cur(s) in s.procs
    ensures Handles(DoFork(s))
  {
    var t := DoFork(s);
    assert forall p, d :: Holds(t, p, d) <==> Holds(s, p, d);
    assert forall id, e :: Entry(t, id, e) <==> Entry(s, id, e);
  }

  lemma ForkKeeps(s: State)
    requires Inv(s) && s.running.Some? && s.pcbFree > 0
    ensures Inv(DoFork(s))
  {
    HeadAlive(s);
    ForkPlaces(s);
    ForkWaiting(s);
    ForkFamily(s);
    ForkHandles(s);
  }

  // ----- wait

  lemma {:induction false} ScanFinds(s: State, kids: seq<Pid>, pid: int)
    requires kids != []
    ensures Scan(s, kids, pid) in kids
    ensures pid == 0 && (exists c :: c in kids && At(s, c).status == Zombie) ==> At(s, Scan(s, kids, pid)).status == Zombie
    ensures pid != 0 && pid in kids ==> Scan(s, kids, pid) == pid
    ensures pid != 0 && pid !in kids ==> Scan(s, kids, pid) == kids[|kids| - 1]
  {
    if |kids| > 1 && !(if pid == 0 then At(s, kids[0]).status == Zombie else kids[0] == pid) {
      ScanFinds(s, kids[1..], pid);
    }
  }

  /** The scan for any child ends on the first one that has exited, and on the last child if none has. */
  lemma {:induction false} ScanFirst(s: State, kids: seq<Pid>) returns (i: nat)
    requires kids != []
    ensures i < |kids| && Scan(s, kids, 0) == kids[i]
    ensures forall j :: 0 <= j < i ==> At(s, kids[j]).status != Zombie
    ensures At(s, kids[i]).status == Zombie || i == |kids| - 1
  {
    if |kids| == 1 || At(s, kids[0]).status == Zombie {
      i := 0;
    } else {
      i := ScanFirst(s, kids[1..]);
      assert kids[1..][i] == kids[i + 1];
      i := i + 1;
    }
  }

  /** The scan looks only at statuses. */
  lemma {:induction false} SameScan(s: State, u: State, kids: seq<Pid>, pid: int)
    requires kids != [] && forall k: Pid :: At(u, k).status == At(s, k).status
    ensures Scan(u, kids, pid) == Scan(s, kids, pid)
  {
    if |kids| > 1 {
      SameScan(s, u, kids[1..], pid);
    }
  }

  lemma ReapPlaces(s: State, c: Pid, hasCell: bool)
    requires Places(s) && s.running.Some? && c in s.zombie && c != INIT
    ensures Places(Reap(s, c, hasCell))
    ensures Reap(s, c, hasCell).procs.Keys == s.procs.Keys - {c}
  {
    var t := Reap(s, c, hasCell);
    HeadAlive(s);
    assert Active(s, Cur(s));
    assert t.procs.Keys == s.procs.Keys - {c};
    assert |t.procs| == |t.procs.Keys|;
    assert forall p :: Active(t, p) <==> Active(s, p);
    WithoutNoDup(s.zombie, [c]);
  }

  lemma ReapWaiting(s: State, c: Pid, hasCell: bool)
    requires Places(s) && s.running.Some? && c in s.zombie
    ensures Sleepers(s) ==> Sleepers(Reap(s, c, hasCell))
    ensures Reasons(s) ==> Reasons(Reap(s, c, hasCell))
    ensures QueuesOk(s) ==> QueuesOk(Reap(s, c, hasCell))
  {
    var t := Reap(s, c, hasCell);
    HeadAlive(s);
    assert forall p :: p in s.waiting ==> At(t, p) == At(s, p);
    if Sleepers(s) {
      SleepersFrame(s, t);
    }
    if QueuesOk(s) {
      QueuesFrame(s, t);
    }
  }

  lemma ReapFamily(s: State, c: Pid, hasCell: bool)
    requires Family(s) && !Dead(s, Cur(s)) && c in Me(s).children && c != Cur(s) && Dead(s, c)
    ensures Family(Reap(s, c, hasCell))
  {
    var t := Reap(s, c, hasCell);
    assert Kid(s, Cur(s), c);
    assert t.procs.Keys == s.procs.Keys - {c};
    WithoutNoDup(Me(s).children, [c]);
    forall p, k
      ensures Kid(t, p, k) <==> Kid(s, p, k) && k != c
    { }
    assert forall p :: Dead(t, p) <==> Dead(s, p);
    forall k | k in t.procs
      ensures Listed(t, k)
    {
      assert Listed(s, k);
    }
  }

  lemma ReapHandles(s: State, c: Pid, hasCell: bool)
    requires Handles(s) && Cur(s) in s.procs && c != Cur(s)
    ensures Handles(Reap(s, c, hasCell))
  {
    HandlesFrame(s, Reap(s, c, hasCell));
  }

  lemma ReapKeeps(s: State, c: Pid, hasCell: bool)
    requires Inv(s) && s.running.Some? && c in Me(s).children && At(s, c).status == Zombie
    ensures Inv(Reap(s, c, hasCell))
  {
    HeadAlive(s);
    assert Kid(s, Cur(s), c);
    ReapPlaces(s, c, hasCell);
    ReapWaiting(s, c, hasCell);
    ReapFamily(s, c, hasCell);
    ReapHandles(s, c, hasCell);
  }

  lemma SuspendWaitKeeps(s: State)
    requires Inv(s) && s.running.Some? && InWait(s, Cur(s))
    ensures Inv(Suspend(s))
  {
    HeadAlive(s);
    SuspendPlaces(s);
    SuspendQueues(s);
    SleepersFrame(s, Suspend(s));
    SuspendTables(s);
  }

  lemma WaitKeeps(s: State, pid: int, hasCell: bool)
    requires Inv(s) && s.running.Some? && InWait(s, Cur(s))
    ensures Inv(DoWait(s, pid, hasCell))
  {
    if Me(s).children == [] {
      ReturnKeeps(s, DSOS_EWAIT);
    } else {
      var c := Scan(s, Me(s).children, pid);
      ScanFinds(s, Me(s).children, pid);
      if At(s, c).status == Zombie {
        ReapKeeps(s, c, hasCell);
      } else {
        SuspendWaitKeeps(s);
        DispatchKeeps(Suspend(s), false);
      }
    }
  }

  // ----- exit

  lemma ParentIsOther(s: State)
    requires Family(s) && s.running.Some? && !Dead(s, Cur(s)) && Me(s).parent.Some?
    ensures Cur(s) != INIT && Me(s).parent != Some(Cur(s))
  {
    assert Listed(s, Cur(s));
  }

  /** Everything but the family survives a departure. */
  lemma DepartKeeps(s: State, value: int)
    requires Inv(s) && s.running.Some? && Cur(s) != INIT
    ensures var t := Depart(s, value); Places(t) && Sleepers(t) && Reasons(t) && QueuesOk(t) && Handles(t)
  {
    var t := Depart(s, value);
    HeadAlive(s);
    DepartPlaces(s, value);
    assert forall p :: At(t, p).call == At(s, p).call;
    SleepersFrame(s, t);
    QueuesFrame(s, t);
    HandlesFrame(s, t);
  }

  lemma DepartPlaces(s: State, value: int)
    requires Places(s) && s.running.Some? && Cur(s) != INIT
    ensures Places(Depart(s, value)) && Depart(s, value).procs.Keys == s.procs.Keys
    ensures forall p :: p in s.procs ==> var x := Depart(s, value).procs[p];
      && x.call == s.procs[p].call && x.status == s.procs[p].status && x.parent == s.procs[p].parent
      && x.descriptors == s.procs[p].descriptors && x.lastFd == s.procs[p].lastFd
  {
    assert Active(s, Cur(s));
    DepartBlocks(s, value);
    PlacesFrame(s, Depart(s, value));
  }

  lemma DepartBlocks(s: State, value: int)
    requires Cur(s) in s.procs && INIT in s.procs && Cur(s) != INIT
    ensures var t := Depart(s, value);
      && t.procs.Keys == s.procs.Keys
      && (forall p :: p in s.procs ==> t.procs[p] == s.procs[p].(children := t.procs[p].children, exitValue := t.procs[p].exitValue))
      && t == s.(procs := t.procs)
  { }

  /** Only statuses and lists tell where a process is. */
  lemma PlacesFrame(s: State, t: State)
    requires Places(s) && t == s.(procs := t.procs) && t.procs.Keys == s.procs.Keys
    requires forall p :: p in s.procs ==> t.procs[p].status == s.procs[p].status && t.procs[p].hasTimer == s.procs[p].hasTimer
    ensures Places(t)
  {
    assert forall p :: Active(t, p) <==> Active(s, p);
    assert |t.procs| == |t.procs.Keys|;
  }

  /** Who is on whose list after a departure. */
  lemma DepartKids(s: State, value: int)
    requires Family(s) && !Dead(s, Cur(s)) && INIT in s.procs && Cur(s) != INIT
    ensures var t := Depart(s, value);
      && t.procs.Keys == s.procs.Keys
      && (forall p, k :: Kid(t, p, k) <==> p != Cur(s) && (Kid(s, p, k) || (p == INIT && Kid(s, Cur(s), k))))
      && (forall p :: p in t.procs ==> NoDup(t.procs[p].children))
      && (forall p :: At(t, p).parent == At(s, p).parent && At(t, p).status == At(s, p).status)
  {
    var t := Depart(s, value);
    assert t.procs.Keys == s.procs.Keys;
    forall k | k in s.procs[INIT].children
      ensures k !in Me(s).children
    {
      assert Kid(s, INIT, k) && !Kid(s, Cur(s), k);
    }
    NoDupAppend(s.procs[INIT].children, Me(s).children);
  }

  lemma BuryPlaces(s: State)
    requires Places(s) && s.running.Some? && Cur(s) != INIT
    ensures Places(Bury(s))
  { }

  lemma BuryFamily(s: State, value: int)
    requires Family(s) && !Dead(s, Cur(s)) && INIT in s.procs && !Dead(s, INIT) && Cur(s) != INIT
    ensures Family(Bury(Depart(s, value)))
  {
    var u, t := Depart(s, value), Bury(Depart(s, value));
    DepartKids(s, value);
    assert t.procs.Keys == s.procs.Keys;
    assert forall p, k :: Kid(t, p, k) <==> Kid(u, p, k);
    assert forall p :: Dead(t, p) <==> Dead(s, p) || p == Cur(s);
    forall k | k in t.procs
      ensures Listed(t, k)
    {
      assert Listed(s, k);
    }
  }

  lemma BuryOthers(s: State)
    requires Places(s) && Sleepers(s) && Reasons(s) && QueuesOk(s) && s.running.Some?
    ensures var t := Bury(s); Sleepers(t) && Reasons(t) && QueuesOk(t)
  {
    var t := Bury(s);
    HeadAlive(s);
    SleepersFrame(s, t);
    QueuesFrame(s, t);
  }

  lemma BuryHandles(s: State)
    requires Places(s) && Handles(s) && s.running.Some?
    ensures Handles(Bury(s))
  {
    HeadAlive(s);
    HandlesFrame(s, Bury(s));
  }

  lemma BuryKeeps(s: State, value: int)
    requires Inv(s) && s.running.Some? && Cur(s) != INIT
    ensures Inv(Bury(Depart(s, value)))
  {
    HeadAlive(s);
    DepartKeeps(s, value);
    BuryPlaces(Depart(s, value));
    BuryOthers(Depart(s, value));
    BuryHandles(Depart(s, value));
    BuryFamily(s, value);
  }

  lemma DeliverPlaces(s: State, p: Pid)
    requires Places(s) && s.running.Some? && Cur(s) != INIT && p in s.waiting
    ensures Places(Deliver(s, p)) && Deliver(s, p).procs.Keys == s.procs.Keys - {Cur(s)}
  {
    HeadAlive(s);
    assert Active(s, Cur(s));
    DeliverBlocks(s, p);
    RunnerGone(s, Deliver(s, p), p);
  }

  lemma DeliverBlocks(s: State, p: Pid)
    requires Cur(s) in s.procs && p in s.procs && p != Cur(s)
    ensures var t := Deliver(s, p);
      && t.procs == s.procs[p := Notified(s, p)] - {Cur(s)} && t.procs.Keys == s.procs.Keys - {Cur(s)}
      && t.ready == s.ready && t.zombie == s.zombie && t.waiting == Without(s.waiting, [p]) && t.running == Some(p)
      && t.lastPid == s.lastPid && t.pcbFree == s.pcbFree + 1
  { }

  /** The running process is gone and p, which was waiting, runs in its place. */
  lemma RunnerGone(s: State, t: State, p: Pid)
    requires Places(s) && s.running.Some? && Cur(s) != INIT && p in s.waiting && Cur(s) in s.procs && p != Cur(s)
    requires t.procs == s.procs[p := Notified(s, p)] - {Cur(s)} && t.procs.Keys == s.procs.Keys - {Cur(s)}
    requires t.ready == s.ready && t.zombie == s.zombie && t.waiting == Without(s.waiting, [p]) && t.running == Some(p)
    requires t.lastPid == s.lastPid && t.pcbFree == s.pcbFree + 1
    ensures Places(t)
  {
    assert Active(s, Cur(s));
    assert |t.procs| == |t.procs.Keys|;
    assert forall q :: Active(t, q) <==> (Active(s, q) && q != Cur(s)) || q == p;
    WithoutNoDup(s.waiting, [p]);
  }

  lemma DeliverWaiting(s: State, p: Pid)
    requires Places(s) && s.running.Some? && p in s.waiting && InWait(s, p)
    ensures Sleepers(s) ==> Sleepers(Deliver(s, p))
    ensures Reasons(s) ==> Reasons(Deliver(s, p))
    ensures QueuesOk(s) ==> QueuesOk(Deliver(s, p))
  {
    var t := Deliver(s, p);
    HeadAlive(s);
    assert forall q :: q in s.waiting && q != p ==> At(t, q) == At(s, q);
    assert forall q :: q in t.waiting <==> q in s.waiting && q != p;
    assert t.queues.Keys == s.queues.Keys;
    if Sleepers(s) {
      SleepersFrame(s, t);
    }
    if QueuesOk(s) {
      QueuesFrame(s, t);
    }
  }

  lemma DeliverKids(s: State, p: Pid)
    requires Cur(s) in s.procs && p in s.procs && p != Cur(s)
    requires forall q :: Kid(s, q, Cur(s)) ==> q == p
    requires forall q :: q in s.procs ==> NoDup(s.procs[q].children)
    ensures var t := Deliver(s, p);
      && t.procs.Keys == s.procs.Keys - {Cur(s)}
      && (forall q, k :: Kid(t, q, k) <==> Kid(s, q, k) && q != Cur(s) && k != Cur(s))
      && (forall q :: q in t.procs ==> NoDup(t.procs[q].children) && t.procs[q].parent == s.procs[q].parent)
      && (forall q :: q in t.procs && q != p ==> t.procs[q] == s.procs[q])
      && t.procs[p].status == Running && t.lastPid == s.lastPid
  {
    var t := Deliver(s, p);
    assert t.procs.Keys == s.procs.Keys - {Cur(s)};
    WithoutNoDup(s.procs[p].children, [Cur(s)]);
    forall q, k | q in t.procs && q != p
      ensures Kid(t, q, k) <==> Kid(s, q, k) && k != Cur(s)
    {
      assert t.procs[q] == s.procs[q];
    }
  }

  /** What a delivered exit does to the lists: r leaves its parent's, and its children join init's. */
  lemma DeliveredKids(s: State, value: int, p: Pid)
    requires Family(s) && !Dead(s, Cur(s)) && INIT in s.procs && Cur(s) != INIT
    requires !Dead(s, p) && p != Cur(s) && Kid(s, p, Cur(s))
    ensures var t, r := Deliver(Depart(s, value), p), Cur(s);
      && t.procs.Keys == s.procs.Keys - {r} && t.lastPid == s.lastPid
      && (forall q :: Dead(t, q) <==> Dead(s, q) || q == r)
      && (forall k :: k in t.procs ==> At(t, k).parent == At(s, k).parent && NoDup(t.procs[k].children))
      && (forall q, k :: Kid(t, q, k) <==> q != r && k != r && (Kid(s, q, k) || (q == INIT && Kid(s, r, k))))
  {
    DepartKids(s, value);
    DeliverKids(Depart(s, value), p);
    DeliveredDead(s, Depart(s, value), p);
  }

  lemma DeliveredDead(s: State, u: State, p: Pid)
    requires Cur(s) in s.procs && p in s.procs && p != Cur(s) && u.procs.Keys == s.procs.Keys && Cur(u) == Cur(s)
    requires s.procs[p].status != Zombie && forall q :: At(u, q).status == At(s, q).status
    ensures forall q :: Dead(Deliver(u, p), q) <==> Dead(s, q) || q == Cur(s)
  {
    forall q
      ensures Dead(Deliver(u, p), q) <==> Dead(s, q) || q == Cur(s)
    {
      assert At(u, q).status == At(s, q).status;
    }
  }

  lemma DeliverFamily(s: State, value: int, p: Pid)
    requires Family(s) && !Dead(s, Cur(s)) && !Dead(s, INIT) && Cur(s) != INIT
    requires !Dead(s, p) && p != Cur(s)
    requires Me(s).parent == Some(p)
    ensures Family(Deliver(Depart(s, value), p))
  {
    assert Listed(s, Cur(s));
    DeliveredKids(s, value, p);
    FamilyLoses(s, Deliver(Depart(s, value), p), Cur(s));
  }

  /** The family stays in order when r and only r disappears from the lists and from the living, and what r had goes to
      init. */
  lemma FamilyLoses(s: State, t: State, r: Pid)
    requires Family(s) && !Dead(s, INIT) && r != INIT && t.lastPid == s.lastPid
    requires forall q :: Dead(t, q) <==> Dead(s, q) || q == r
    requires forall k :: k in t.procs ==> k in s.procs && At(t, k).parent == At(s, k).parent && NoDup(t.procs[k].children)
    requires forall k :: k in s.procs && k != r ==> k in t.procs
    requires forall q, k :: Kid(t, q, k) <==> q != r && k != r && (Kid(s, q, k) || (q == INIT && Kid(s, r, k)))
    requires r !in t.procs
    ensures Family(t)
  {
    forall k | k in t.procs
      ensures Listed(t, k)
    {
      assert Listed(s, k);
    }
  }

  lemma DeliverHandles(s: State, p: Pid)
    requires Handles(s) && Cur(s) in s.procs && p in s.procs && p != Cur(s)
    ensures Handles(Deliver(s, p))
  {
    var t, r := Deliver(s, p), Cur(s);
    var ds := Me(s).descriptors;
    assert FdsGrow(ds, Me(s).lastFd);
    forall d | d in ds
      ensures Holds(s, r, d)
    { }
    assert forall q, d :: Holds(t, q, d) <==> Holds(s, q, d) && q != r;
    ReleaseHandles(s, t, r, ds);
  }

  lemma DeliverKeeps(s: State, value: int)
    requires Inv(s) && s.running.Some? && Cur(s) != INIT && Me(s).parent.Some?
    requires AwaitsExitOf(s, ParentOf(s, Cur(s)), Cur(s)) && ParentOf(s, Cur(s)) in s.procs
    ensures Inv(Deliver(Depart(s, value), ParentOf(s, Cur(s))))
  {
    var u, p := Depart(s, value), ParentOf(s, Cur(s));
    HeadAlive(s);
    DepartPlaces(s, value);
    DepartKeeps(s, value);
    DeliverPlaces(u, p);
    DeliverWaiting(u, p);
    DeliverFamily(s, value, p);
    DeliverHandles(u, p);
  }

  lemma ExitKeeps(s: State, value: int)
    requires Inv(s) && s.running.Some? && Me(s).parent.Some? && Me(s).parent.value in s.procs
    ensures Inv(DoExit(s, value))
  {
    HeadAlive(s);
    ParentIsOther(s);
    if AwaitsExitOf(s, ParentOf(s, Cur(s)), Cur(s)) {
      DeliverKeeps(s, value);
    } else {
      BuryKeeps(s, value);
      DispatchKeeps(Bury(Depart(s, value)), true);
    }
  }
}
