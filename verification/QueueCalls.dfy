/** The message queue calls keep the invariant. */
module QueueCalls {
  import opened Lists
  import Links
  import opened Machine
  import opened Invariants
  import opened Frames
  import Scheduling

  /** Changes to queues, descriptors and free counts that touch neither the process lists nor who is whose child. */
  ghost predicate SameProcesses(s: State, t: State) {
    && t.running == s.running && t.ready == s.ready && t.waiting == s.waiting && t.zombie == s.zombie
    && t.lastPid == s.lastPid && t.pcbFree == s.pcbFree
    && t.timers == s.timers && t.timerPool == s.timerPool
    && t.procs.Keys == s.procs.Keys
    && forall p :: p in s.procs ==>
         t.procs[p] == s.procs[p].(ret := t.procs[p].ret, lastFd := t.procs[p].lastFd, descriptors := t.procs[p].descriptors)
  }

  lemma SamePlaces(s: State, t: State)
    requires Places(s) && SameProcesses(s, t)
    ensures Places(t)
  { }

  lemma SameOthers(s: State, t: State)
    requires Sleepers(s) && Reasons(s) && Family(s) && SameProcesses(s, t)
    ensures Sleepers(t) && Reasons(t) && Family(t)
    ensures forall p :: At(t, p).call == At(s, p).call
  {
    SleepersFrame(s, t);
    FamilyFrame(s, t);
  }

  // ----- open

  /** The block a create takes carries no link: it is free, and blocks are detached before they are freed. */
  lemma NextIsUnlinked(s: State)
    requires QueuesOk(s) && s.mqs.pool.free != []
    ensures NextBlock(s.mqs) !in s.mqs.list && !Links.Carries(s.mqs.links, NextBlock(s.mqs))
  {
    assert !s.mqs.pool.Out(s.mqs.pool.free[0]);
  }

  lemma CreateKeeps(s: State, id: int)
    requires Inv(s) && id !in s.queues && s.mqs.pool.free != []
    ensures Inv(Create(s, id)) && id in Create(s, id).queues
  {
    var t := Create(s, id);
    NextIsUnlinked(s);
    SamePlaces(s, t);
    SameOthers(s, t);
    CreateQueues(s, id);
    CreateHandles(s, id);
  }

  lemma CreateTable(s: State, id: int)
    requires QueuesOk(s) && id !in s.queues && s.mqs.pool.free != []
    ensures TableOk(Create(s, id).mqs, Create(s, id).queues)
  {
    var t, b := s.mqs, NextBlock(s.mqs);
    NextIsUnlinked(s);
    Links.TieThreads(t.links, t.list, |t.list|, b);
    assert t.list[..|t.list|] + [b] + t.list[|t.list|..] == t.list + [b] && t.list[..|t.list|] == t.list;
    assert forall x :: t.pool.Take().Out(x) <==> t.pool.Out(x) || x == b;
  }

  lemma CreateQueues(s: State, id: int)
    requires QueuesOk(s) && id !in s.queues && s.mqs.pool.free != []
    ensures QueuesOk(Create(s, id))
  {
    CreateTable(s, id);
    NextIsUnlinked(s);
    assert QueueOk(Create(s, id), id, NEW_QUEUE.(block := NextBlock(s.mqs)));
    forall i | i in s.queues
      ensures QueueOk(Create(s, id), i, s.queues[i])
    {
      assert QueueOk(s, i, s.queues[i]);
    }
  }

  lemma CreateHandles(s: State, id: int)
    requires Handles(s) && id !in s.queues
    ensures Handles(Create(s, id))
  {
    var t := Create(s, id);
    assert forall p, d :: Holds(t, p, d) <==> Holds(s, p, d);
    assert forall i, e :: Entry(t, i, e) <==> Entry(s, i, e);
  }

  lemma AttachQueues(s: State, id: int)
    requires QueuesOk(s) && id in s.queues && s.descPool.free != []
    requires forall p :: At(Attach(s, id), p).call == At(s, p).call
    ensures QueuesOk(Attach(s, id))
  {
    assert Attach(s, id).queues.Keys == s.queues.Keys;
    QueuesFrame(s, Attach(s, id));
  }

  /** A handle and its entry in fresh blocks of the same number. */
  lemma HandleAdded(s: State, t: State, r: Pid, d: Descriptor, e: DescriptorPtr)
    requires Handles(s) && s.descPool.free != [] && r in s.procs && d.mq in s.queues
    requires d.block == d.ptr == e.block == e.descriptor == s.descPool.free[0]
    requires t.descPool == t.ptrPool == s.descPool.Take()
    requires forall p, x :: Holds(t, p, x) <==> Holds(s, p, x) || (p == r && x == d)
    requires forall i, x :: Entry(t, i, x) <==> Entry(s, i, x) || (i == d.mq && x == e)
    requires forall p :: p in t.procs ==> FdsGrow(t.procs[p].descriptors, t.procs[p].lastFd)
    requires forall i :: i in t.queues ==> BlocksDiffer(t.queues[i].entries)
    ensures Handles(t)
  { }

  /** The pointer block is there whenever the descriptor block is, and has the same number. */
  lemma AttachHandles(s: State, id: int)
    requires Handles(s) && Cur(s) in s.procs && id in s.queues && s.descPool.free != []
    ensures s.ptrPool.free != [] && Handles(Attach(s, id))
  {
    var t := Attach(s, id);
    var b := s.descPool.free[0];
    var d, e := Descriptor(b, Me(s).lastFd, id, b), DescriptorPtr(b, b);
    assert t.queues.Keys == s.queues.Keys && t.procs.Keys == s.procs.Keys;
    forall i | 0 <= i < |s.queues[id].entries|
      ensures s.queues[id].entries[i].block != b
    {
      assert Entry(s, id, s.queues[id].entries[i]);
    }
    assert BlocksDiffer(s.queues[id].entries);
    assert FdsGrow(Me(s).descriptors, Me(s).lastFd);
    HandleAdded(s, t, Cur(s), d, e);
  }

  lemma AttachKeeps(s: State, id: int)
    requires Inv(s) && s.running.Some? && id in s.queues
    ensures Inv(Attach(s, id))
  {
    if s.descPool.free == [] {
      ReturnKeeps(s, DSOS_ERESOURCENOFD);
    } else {
      var t := Attach(s, id);
      HeadAlive(s);
      SamePlaces(s, t);
      SameOthers(s, t);
      AttachQueues(s, id);
      AttachHandles(s, id);
    }
  }

  lemma OpenKeeps(s: State, id: int, mode: int)
    requires Inv(s) && s.running.Some? && (mode == DSOS_CREATE && id !in s.queues ==> s.mqs.pool.free != [])
    ensures Inv(DoOpen(s, id, mode))
  {
    if mode == DSOS_CREATE && id in s.queues {
      ReturnKeeps(s, DSOS_ERESOURCECREATE);
    } else if mode == DSOS_CREATE {
      CreateKeeps(s, id);
      AttachKeeps(Create(s, id), id);
    } else if id !in s.queues {
      ReturnKeeps(s, DSOS_ERESOURCEOPEN);
    } else if mode == DSOS_EXCL && s.queues[id].entries != [] {
      ReturnKeeps(s, DSOS_ERESOURCENOEXCL);
    } else {
      AttachKeeps(s, id);
    }
  }

  // ----- close

  lemma ShortenedList(ds: seq<Descriptor>, k: nat, lastFd: nat)
    requires k < |ds| && FdsGrow(ds, lastFd)
    ensures var left := ds[..k] + ds[k + 1..];
      && FdsGrow(left, lastFd) && ds[k] !in left && forall d :: d in left ==> d in ds
  { }

  lemma CloseHandles(s: State, fd: int)
    requires Handles(s) && Cur(s) in s.procs && FdIndex(Me(s).descriptors, fd) < |Me(s).descriptors|
    ensures Handles(DoClose(s, fd))
  {
    var t := DoClose(s, fd);
    var ds := Me(s).descriptors;
    var k := FdIndex(ds, fd);
    assert FdsGrow(ds, Me(s).lastFd);
    ShortenedList(ds, k, Me(s).lastFd);
    assert t.procs == s.procs[Cur(s) := Me(s).(descriptors := ds[..k] + ds[k + 1..], ret := 0)];
    assert [ds[k]][0] == ds[k] && Holds(s, Cur(s), ds[k]);
    ReleaseHandles(s, t, Cur(s), [ds[k]]);
  }

  lemma CloseKeeps(s: State, fd: int)
    requires Inv(s) && s.running.Some?
    ensures Inv(DoClose(s, fd))
  {
    if FdIndex(Me(s).descriptors, fd) == |Me(s).descriptors| {
      ReturnKeeps(s, DSOS_ERESOURCECLOSE);
    } else {
      var t := DoClose(s, fd);
      HeadAlive(s);
      SamePlaces(s, t);
      SameOthers(s, t);
      CloseHandles(s, fd);
      CloseQueues(s, fd);
    }
  }

  lemma CloseQueues(s: State, fd: int)
    requires QueuesOk(s) && FdIndex(Me(s).descriptors, fd) < |Me(s).descriptors|
    requires forall p :: At(DoClose(s, fd), p).call == At(s, p).call
    ensures QueuesOk(DoClose(s, fd))
  {
    var t := DoClose(s, fd);
    assert t.queues.Keys == s.queues.Keys;
    QueuesFrame(s, t);
  }

  // ----- destroy

  lemma VanishKeeps(s: State, id: int)
    requires Inv(s) && id in s.queues && s.queues[id].entries == []
    ensures Inv(Vanish(s, id))
  {
    var t := Vanish(s, id);
    SamePlaces(s, t);
    SameOthers(s, t);
    VanishQueues(s, id);
    VanishHandles(s, id);
  }

  lemma VanishQueues(s: State, id: int)
    requires QueuesOk(s) && id in s.queues
    ensures QueuesOk(Vanish(s, id))
  {
    VanishTable(s, id);
    forall i | i in s.queues && i != id
      ensures QueueOk(Vanish(s, id), i, s.queues[i])
    {
      assert QueueOk(s, i, s.queues[i]);
    }
  }

  lemma VanishTable(s: State, id: int)
    requires QueuesOk(s) && id in s.queues
    ensures TableOk(Vanish(s, id).mqs, Vanish(s, id).queues)
  {
    var t, b := s.mqs, s.queues[id].block;
    var k :| 0 <= k < |t.list| && t.list[k] == b;
    Links.UntieThreads(t.links, t.list, k);
    Links.WithoutAt(t.list, k);
    assert Vanish(s, id).mqs.list == Without(t.list, [b]);
    assert |Vanish(s, id).queues| == |s.queues| - 1 by {
      assert Vanish(s, id).queues.Keys == s.queues.Keys - {id};
    }
    assert forall x :: t.pool.Put(b).Out(x) <==> t.pool.Out(x) && x != b;
  }

  lemma VanishHandles(s: State, id: int)
    requires Handles(s) && id in s.queues && s.queues[id].entries == []
    ensures Handles(Vanish(s, id))
  {
    var t := Vanish(s, id);
    assert forall p, d :: Holds(t, p, d) <==> Holds(s, p, d);
    assert forall i, e :: Entry(t, i, e) <==> Entry(s, i, e);
  }

  lemma DestroyKeeps(s: State, id: int)
    requires Inv(s) && s.running.Some?
    ensures Inv(DoDestroy(s, id))
  {
    if id !in s.queues {
      ReturnKeeps(s, DSOS_ERESOURCECLOSE);
    } else if s.queues[id].entries != [] {
      ReturnKeeps(s, DSOS_ERESOURCEINUSE);
    } else {
      VanishKeeps(s, id);
      ReturnKeeps(Vanish(s, id), 0);
    }
  }

  // ----- blocking on a queue

  /** The state in which the running process has joined a queue's waiters and left the processor. */
  ghost predicate Joined(s: State, t: State, id: int) {
    && id in s.queues
    && t.running.None? && t.ready == s.ready && t.zombie == s.zombie && t.waiting == s.waiting + [Cur(s)]
    && t.mqs == s.mqs && t.queues.Keys == s.queues.Keys && t.queues[id].block == s.queues[id].block
    && (forall i :: i in s.queues && i != id ==> t.queues[i] == s.queues[i])
    && (forall p :: At(t, p).call == At(s, p).call)
  }

  /** The queue the caller joined: it was not waiting there before. */
  lemma JoinedQueue(s: State, t: State, id: int)
    requires Joined(s, t, id) && QueueOk(s, id, s.queues[id]) && Cur(s) !in s.waiting
    requires
      || (ReadsFrom(s, Cur(s), id) && s.queues[id].messages == [] &&
          t.queues[id] == s.queues[id].(readers := s.queues[id].readers + [Cur(s)]))
      || (WritesTo(s, Cur(s), id) && s.queues[id].numWritten == MAX_NUM_MESSAGES &&
          t.queues[id] == s.queues[id].(writers := s.queues[id].writers + [Cur(s)]))
    ensures QueueOk(t, id, t.queues[id])
  { }

  lemma JoinQueues(s: State, t: State, id: int)
    requires QueuesOk(s) && Joined(s, t, id) && QueueOk(t, id, t.queues[id])
    ensures QueuesOk(t)
  {
    TableFrame(s.mqs, s.queues, t.queues);
  }

  lemma JoinSame(s: State, id: int, u: State)
    requires id in s.queues && (u == JoinReaders(s, id) || u == JoinWriters(s, id))
    ensures SameProcesses(s, u) && Joined(s, Suspend(u), id) && Suspend(u).queues == u.queues
    ensures Handles(s) ==> Handles(u)
  {
    SuspendCalls(u);
    if Handles(s) {
      HandlesFrame(s, u);
    }
  }

  lemma JoinOthers(s: State, u: State)
    requires Places(s) && Sleepers(s) && Reasons(s) && Family(s) && Handles(u)
    requires SameProcesses(s, u) && s.running.Some?
    requires InQueueCall(s, Cur(s))
    ensures var t := Suspend(u); Places(t) && Sleepers(t) && Reasons(t) && Family(t) && Handles(t)
  {
    HeadAlive(s);
    SamePlaces(s, u);
    SameOthers(s, u);
    SuspendPlaces(u);
    SuspendTables(u);
    SuspendCalls(u);
    SleepersFrame(u, Suspend(u));
  }

  predicate InQueueCall(s: State, p: Pid) {
    At(s, p).call.Some? && (At(s, p).call.value.Read? || At(s, p).call.value.Write?)
  }

  lemma JoinKeeps(s: State, id: int, u: State)
    requires Inv(s) && s.running.Some? && id in s.queues
    requires
      || (u == JoinReaders(s, id) && ReadsFrom(s, Cur(s), id) && s.queues[id].messages == [])
      || (u == JoinWriters(s, id) && WritesTo(s, Cur(s), id) && s.queues[id].numWritten == MAX_NUM_MESSAGES)
    ensures Inv(Suspend(u))
  {
    HeadAlive(s);
    JoinSame(s, id, u);
    JoinOthers(s, u);
    JoinedQueue(s, Suspend(u), id);
    JoinQueues(s, Suspend(u), id);
  }

  lemma SuspendCalls(s: State)
    ensures forall p :: p in Suspend(s).waiting <==> p == Cur(s) || p in s.waiting
    ensures forall p :: At(Suspend(s), p).call == At(s, p).call
  { }

  // ----- passing a message on

  /** t is s after a message went into or out of queue id and the waiters ps of that queue became ready. */
  ghost predicate Passed(s: State, t: State, id: int, ps: seq<Pid>) {
    && id in s.queues
    && Scheduling.Woken(s, t, ps)
    && t.timers == s.timers && t.timerPool == s.timerPool && t.mqs == s.mqs
    && t.descPool == s.descPool && t.ptrPool == s.ptrPool
    && t.queues.Keys == s.queues.Keys
    && t.queues[id].entries == s.queues[id].entries && t.queues[id].block == s.queues[id].block
    && (forall i :: i in s.queues && i != id ==> t.queues[i] == s.queues[i])
  }

  lemma PassKeeps(s: State, t: State, id: int, ps: seq<Pid>)
    requires Inv(s) && Passed(s, t, id, ps)
    requires NoDup(ps) && forall p :: p in ps ==> p in s.waiting && (ReadsFrom(s, p, id) || WritesTo(s, p, id))
    requires QueueOk(t, id, t.queues[id])
    ensures Inv(t)
  {
    Scheduling.WokenPlaces(s, t, ps);
    Scheduling.WokenCalls(s, t, ps);
    Scheduling.WokenFamily(s, t, ps);
    PassQueues(s, t, id, ps);
    PassRest(s, t, id, ps);
  }

  lemma PassQueues(s: State, t: State, id: int, ps: seq<Pid>)
    requires QueuesOk(s) && Passed(s, t, id, ps)
    requires forall p :: p in ps ==> ReadsFrom(s, p, id) || WritesTo(s, p, id)
    requires QueueOk(t, id, t.queues[id])
    ensures QueuesOk(t)
  {
    TableFrame(s.mqs, s.queues, t.queues);
  }

  lemma PassRest(s: State, t: State, id: int, ps: seq<Pid>)
    requires Sleepers(s) && Handles(s) && Passed(s, t, id, ps)
    requires forall p :: p in ps ==> ReadsFrom(s, p, id) || WritesTo(s, p, id)
    ensures Sleepers(t) && Handles(t)
  {
    Scheduling.WokenCalls(s, t, ps);
    SleepersFrame(s, t);
    HandlesFrame(s, t);
  }

  lemma AppendKeeps(s: State, id: int, data: Message)
    requires Inv(s) && id in s.queues && |data| <= MAX_LEN_MESSAGE && s.queues[id].numWritten != MAX_NUM_MESSAGES
    ensures Inv(Append(s, id, data))
  {
    var t, q := Append(s, id, data), s.queues[id];
    assert QueueOk(s, id, q);
    AppendPasses(s, id, data);
    Scheduling.WokenCalls(s, t, q.readers);
    assert QueueOk(t, id, t.queues[id]);
    PassKeeps(s, t, id, q.readers);
  }

  lemma AppendPasses(s: State, id: int, data: Message)
    requires id in s.queues
    ensures Passed(s, Append(s, id, data), id, s.queues[id].readers)
  { }

  lemma RemoveKeeps(s: State, id: int)
    requires Inv(s) && id in s.queues && s.queues[id].messages != []
    ensures Inv(Remove(s, id))
  {
    var t, q := Remove(s, id), s.queues[id];
    assert QueueOk(s, id, q);
    RemovePasses(s, id);
    Scheduling.WokenCalls(s, t, q.writers);
    assert QueueOk(t, id, t.queues[id]);
    PassKeeps(s, t, id, q.writers);
  }

  lemma RemovePasses(s: State, id: int)
    requires id in s.queues && s.queues[id].messages != []
    ensures Passed(s, Remove(s, id), id, s.queues[id].writers)
  { }

  lemma WriteKeeps(s: State, id: int, data: Message)
    requires Inv(s) && s.running.Some? && WritesTo(s, Cur(s), id)
    ensures Inv(DoWrite(s, id, data))
  {
    if |data| > MAX_LEN_MESSAGE {
      ReturnKeeps(s, ETOOLONG);
    } else if id !in s.queues {
      ReturnKeeps(s, DSOS_ERESOURCENOFD);
    } else if s.queues[id].numWritten == MAX_NUM_MESSAGES {
      JoinKeeps(s, id, JoinWriters(s, id));
      DispatchKeeps(Suspend(JoinWriters(s, id)), true);
    } else {
      AppendKeeps(s, id, data);
      ReturnKeeps(Append(s, id, data), |data|);
    }
  }

  lemma ReadKeeps(s: State, id: int, room: int)
    requires Inv(s) && s.running.Some? && ReadsFrom(s, Cur(s), id) && id in s.queues
    ensures Inv(DoRead(s, id, room))
  {
    var q := s.queues[id];
    if q.messages == [] {
      JoinKeeps(s, id, JoinReaders(s, id));
      DispatchKeeps(Suspend(JoinReaders(s, id)), true);
    } else if |q.messages[0]| > room {
      ReturnKeeps(s, ESHORTBUFFER);
    } else {
      RemoveKeeps(s, id);
      ReturnKeeps(Remove(s, id), |q.messages[0]|);
    }
  }
}
