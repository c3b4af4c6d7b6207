/** Changes that leave most of the invariant alone. */
module Frames {
  import opened Lists
  import PoolAllocator
  import opened Machine
  import opened Invariants

  // ----- a group of the invariant survives every change outside what it speaks of

  lemma SleepersFrame(s: State, t: State)
    requires Sleepers(s)
    requires t.timers == s.timers && t.timerPool == s.timerPool
    requires forall p :: p in s.waiting && Asleep(s, p) <==> p in t.waiting && Asleep(t, p)
    ensures Sleepers(t)
  { }

  /** The table of queue blocks looks only at which queues there are and at their blocks. */
  lemma TableFrame(t: QueueTable, before: map<int, Queue>, after: map<int, Queue>)
    requires TableOk(t, before) && after.Keys == before.Keys
    requires forall id :: id in before ==> after[id].block == before[id].block
    ensures TableOk(t, after)
  {
    assert |after| == |after.Keys| == |before.Keys| == |before|;
  }

  lemma QueuesFrame(s: State, t: State)
    requires QueuesOk(s)
    requires t.mqs == s.mqs && t.queues.Keys == s.queues.Keys
    requires forall id :: id in s.queues ==> t.queues[id] == s.queues[id].(entries := t.queues[id].entries)
    requires forall p :: p in s.waiting && (At(s, p).call.Some? && (At(s, p).call.value.Read? || At(s, p).call.value.Write?)) ==>
               p in t.waiting && At(t, p).call == At(s, p).call
    ensures QueuesOk(t)
  {
    TableFrame(s.mqs, s.queues, t.queues);
    forall id | id in t.queues
      ensures QueueOk(t, id, t.queues[id])
    {
      assert QueueOk(s, id, s.queues[id]);
    }
  }

  lemma FamilyFrame(s: State, t: State)
    requires Family(s)
    requires t.procs.Keys == s.procs.Keys && t.lastPid == s.lastPid
    requires forall p :: p in s.procs ==>
               && t.procs[p].children == s.procs[p].children && t.procs[p].parent == s.procs[p].parent
               && (t.procs[p].status == Zombie <==> s.procs[p].status == Zombie)
    ensures Family(t)
  {
    assert forall p, c :: Kid(t, p, c) <==> Kid(s, p, c);
    assert forall p :: Dead(t, p) <==> Dead(s, p);
    forall c | c in t.procs
      ensures Listed(t, c)
    {
      assert Listed(s, c);
    }
  }

  lemma HandlesFrame(s: State, t: State)
    requires Handles(s)
    requires t.procs.Keys <= s.procs.Keys && t.queues.Keys == s.queues.Keys
    requires t.descPool == s.descPool && t.ptrPool == s.ptrPool
    requires forall p :: p in t.procs ==>
               t.procs[p].descriptors == s.procs[p].descriptors && t.procs[p].lastFd == s.procs[p].lastFd
    requires forall id :: id in s.queues ==> t.queues[id].entries == s.queues[id].entries
    ensures Handles(t)
  {
    assert forall p, d :: Holds(t, p, d) ==> Holds(s, p, d);
    assert forall id, e :: Entry(t, id, e) <==> Entry(s, id, e);
  }

  // ----- bookkeeping of the running process alone

  /** The running process may change what no list depends on. */
  predicate Note(s: State, x: Pcb) {
    && s.running.Some?
    && x.status == Me(s).status && x.parent == Me(s).parent && x.children == Me(s).children
    && x.hasTimer == Me(s).hasTimer && x.lastFd == Me(s).lastFd && x.descriptors == Me(s).descriptors
  }

  lemma NotePlaces(s: State, x: Pcb)
    requires Places(s) && Note(s, x)
    ensures Places(Put(s, Cur(s), x)) && Put(s, Cur(s), x).procs.Keys == s.procs.Keys
  { }

  lemma NoteWaiting(s: State, x: Pcb)
    requires Places(s) && Sleepers(s) && Reasons(s) && QueuesOk(s) && Note(s, x)
    ensures var t := Put(s, Cur(s), x); Sleepers(t) && Reasons(t) && QueuesOk(t)
  { }

  lemma NoteTables(s: State, x: Pcb)
    requires Places(s) && Family(s) && Handles(s) && Note(s, x)
    ensures var t := Put(s, Cur(s), x); Family(t) && Handles(t)
  {
    NotePlaces(s, x);
    FamilyFrame(s, Put(s, Cur(s), x));
    HandlesFrame(s, Put(s, Cur(s), x));
  }

  lemma NoteKeeps(s: State, x: Pcb)
    requires Inv(s) && Note(s, x)
    ensures Inv(Put(s, Cur(s), x))
  {
    NotePlaces(s, x);
    NoteWaiting(s, x);
    NoteTables(s, x);
  }

  lemma ReturnKeeps(s: State, v: int)
    requires Inv(s) && s.running.Some?
    ensures Inv(Return(s, v))
  {
    NoteKeeps(s, Me(s).(ret := v));
  }

  lemma EnterKeeps(s: State, c: Call)
    requires Inv(s) && s.running.Some?
    ensures Inv(Enter(s, c))
  {
    NoteKeeps(s, Me(s).(call := Some(c)));
  }

  // ----- giving up and taking the processor

  lemma DispatchPlaces(s: State, mark: bool)
    requires Places(s) && s.running.None?
    ensures Places(Dispatch(s, mark))
  { }

  lemma DispatchWaiting(s: State, mark: bool)
    requires Places(s) && Sleepers(s) && Reasons(s) && QueuesOk(s) && s.running.None?
    ensures var t := Dispatch(s, mark); Sleepers(t) && Reasons(t) && QueuesOk(t)
  {
    HeadAlive(s);
    SleepersFrame(s, Dispatch(s, mark));
    QueuesFrame(s, Dispatch(s, mark));
  }

  lemma DispatchTables(s: State, mark: bool)
    requires s.ready != [] ==> !Dead(s, s.ready[0])
    requires Family(s) && Handles(s)
    ensures var t := Dispatch(s, mark); Family(t) && Handles(t)
  {
    var t := Dispatch(s, mark);
    assert t.procs.Keys == s.procs.Keys;
    FamilyFrame(s, t);
    HandlesFrame(s, t);
  }

  /** With nobody running, the head of the ready list may run. */
  lemma DispatchKeeps(s: State, mark: bool)
    requires Inv(s) && s.running.None?
    ensures Inv(Dispatch(s, mark))
  {
    HeadAlive(s);
    DispatchPlaces(s, mark);
    DispatchWaiting(s, mark);
    DispatchTables(s, mark);
  }

  lemma HeadAlive(s: State)
    requires Places(s)
    ensures s.ready != [] ==> !Dead(s, s.ready[0]) && s.ready[0] !in s.waiting
    ensures s.running.Some? ==> !Dead(s, Cur(s)) && Cur(s) !in s.waiting && Cur(s) !in s.zombie
  { }

  lemma SuspendPlaces(s: State)
    requires Places(s) && s.running.Some?
    ensures Places(Suspend(s))
  { }

  lemma SuspendTables(s: State)
    requires s.running.Some? && !Dead(s, Cur(s))
    requires Family(s) && Handles(s)
    ensures Family(Suspend(s)) && Handles(Suspend(s))
  {
    var t := Suspend(s);
    assert t.procs.Keys == s.procs.Keys;
    FamilyFrame(s, t);
    HandlesFrame(s, t);
  }

  lemma ReadyNotWaiting(s: State)
    requires Places(s)
    ensures forall p :: p in s.ready ==> p in s.procs && p !in s.waiting && p !in s.zombie && p < s.lastPid
  {
    forall p | p in s.ready
      ensures p in s.procs && p !in s.waiting && p !in s.zombie && p < s.lastPid
    {
      assert Active(s, p);
    }
  }

  // ----- giving blocks back

  lemma PutOne(p: PoolAllocator.Pool, b: int)
    ensures p.PutAll([b]) == p.Put(b)
  { }

  lemma {:induction false} PutAllBack(p: PoolAllocator.Pool, bs: seq<int>)
    requires p.Valid() && NoDup(bs) && forall b :: b in bs ==> p.Out(b)
    ensures p.PutAll(bs).Valid() && p.PutAll(bs).cap == p.cap
    ensures |p.PutAll(bs).free| == |p.free| + |bs|
    ensures forall b :: p.PutAll(bs).Out(b) <==> p.Out(b) && b !in bs
    decreases |bs|
  {
    if bs != [] {
      var q := p.Put(bs[0]);
      assert bs[0] in bs && bs[0] !in bs[1..];
      assert forall b :: b in bs <==> b == bs[0] || b in bs[1..];
      assert forall b :: q.Out(b) <==> p.Out(b) && b != bs[0];
      PutAllBack(q, bs[1..]);
    }
  }

  lemma {:induction false} DropKeepsApart(es: seq<DescriptorPtr>, bs: seq<int>)
    requires BlocksDiffer(es)
    ensures BlocksDiffer(DropEntries(es, bs))
  {
    if es != [] {
      DropKeepsApart(es[1..], bs);
      var rest := DropEntries(es[1..], bs);
      forall i | 0 <= i < |rest|
        ensures rest[i].block != es[0].block
      {
        assert rest[i] in rest;
      }
    }
  }

  /** Releasing descriptors that one process holds, once that process no longer lists them. */
  lemma ReleaseHandles(s: State, t: State, r: Pid, ds: seq<Descriptor>)
    requires Handles(s) && t.queues == Release(s, ds).queues
    requires t.descPool == Release(s, ds).descPool && t.ptrPool == Release(s, ds).ptrPool
    requires NoDup(ds) && forall d :: d in ds ==> Holds(s, r, d)
    requires forall p, d :: Holds(t, p, d) ==> Holds(s, p, d) && (p == r ==> d !in ds)
    requires forall p :: p in t.procs ==> FdsGrow(t.procs[p].descriptors, t.procs[p].lastFd)
    ensures Handles(t)
  {
    var bs := Blocks(ds);
    forall i | 0 <= i < |ds|
      ensures Holds(s, r, ds[i])
    {
      assert ds[i] in ds;
    }
    assert Ptrs(ds) == bs;
    PutAllBack(s.descPool, bs);
    assert forall id, e :: Entry(t, id, e) <==> Entry(s, id, e) && e.block !in bs;
    forall p, d, i | Holds(s, p, d) && 0 <= i < |ds| && d.block == bs[i]
      ensures p == r && d in ds
    {
      assert Holds(s, r, ds[i]) && ds[i] in ds;
    }
    assert forall p, d :: Holds(t, p, d) ==> d.block !in bs;
    forall id | id in t.queues
      ensures BlocksDiffer(t.queues[id].entries)
    {
      DropKeepsApart(s.queues[id].entries, Ptrs(ds));
    }
  }
}
