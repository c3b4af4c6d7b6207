/** What every call comes to: the answer its caller gets, with the numbers that callers see, and what else is different
    afterwards. */
module Outcomes {
  import opened Lists
  import opened Machine
  import opened Invariants
  import Dispatching
  import Frames
  import Processes
  import QueueCalls
  import Runs

  /** The call is over at once, and of all processes only the caller finds anything changed: its answer and its descriptors. */
  ghost predicate AtOnce(s: State, t: State, c: Call) {
    && t.running == s.running && t.ready == s.ready && t.waiting == s.waiting && t.zombie == s.zombie
    && t.timers == s.timers && t.time == s.time && t.lastPid == s.lastPid
    && t.procs == s.procs[Cur(s) := Me(s).(call := Some(c), ret := Me(t).ret, lastFd := Me(t).lastFd, descriptors := Me(t).descriptors)]
  }

  /** The call gets the answer v, which is an error, and nothing else has changed. */
  ghost predicate Refused(s: State, t: State, c: Call, v: int) {
    v < 0 && t == s.(procs := s.procs[Cur(s) := Me(s).(call := Some(c), ret := v)])
  }

  ghost predicate SamePools(s: State, t: State) {
    t.descPool == s.descPool && t.ptrPool == s.ptrPool
  }

  /** The caller waits behind everybody who waits already, without an answer, and the head of the ready list runs; a wait
      does not mark it as running. */
  ghost predicate Blocked(s: State, t: State, c: Call) {
    && t.waiting == s.waiting + [Cur(s)] && s.ready != [] && t.running == Some(s.ready[0]) && t.ready == s.ready[1..]
    && t.zombie == s.zombie && t.timers == s.timers && t.time == s.time && t.lastPid == s.lastPid && t.procs.Keys == s.procs.Keys
    && At(t, Cur(s)) == Me(s).(call := Some(c), status := Waiting) && SamePools(s, t)
    && forall p :: p in s.procs && p != Cur(s) ==>
         t.procs[p] == if p == s.ready[0] && !c.Wait? then s.procs[p].(status := Running) else s.procs[p]
  }

  /** The call gets the answer v, and the processes ps, which were blocked, are ready: behind everybody who was, in order, each
      with the answer -20. */
  ghost predicate Woke(s: State, t: State, c: Call, ps: seq<Pid>, v: int) {
    && t.running == s.running && t.ready == s.ready + ps && t.waiting == Without(s.waiting, ps) && t.zombie == s.zombie
    && t.timers == s.timers && t.time == s.time && t.lastPid == s.lastPid && t.procs.Keys == s.procs.Keys
    && Me(t) == Me(s).(call := Some(c), ret := v) && SamePools(s, t)
    && forall p :: p in s.procs && p != Cur(s) ==>
         t.procs[p] == if p in ps then s.procs[p].(status := Ready, ret := -20) else s.procs[p]
  }

  // ----- open

  /** Queue id is there, with the entries more that it had, or with only those, and otherwise as it was, or empty; all
      other queues are as they were. */
  ghost predicate WithQueue(s: State, t: State, id: int, more: seq<DescriptorPtr>) {
    && t.queues.Keys == s.queues.Keys + {id} && (forall i :: i in s.queues && i != id ==> t.queues[i] == s.queues[i])
    && (var was := QueueAt(s, id); QueueAt(t, id) == was.(block := QueueAt(t, id).block, entries := was.entries + more))
    && (id in s.queues ==> t.queues[id].block == s.queues[id].block)
  }

  /** The caller has one more descriptor, with the answer as fd, which is higher than those it had, and the queue one more entry,
      for that descriptor. */
  ghost predicate Opened(s: State, t: State, id: int, d: Descriptor) {
    && Me(t).descriptors == Me(s).descriptors + [d] && d.mq == id && d.fd == Me(t).ret
    && (forall x :: x in Me(s).descriptors ==> x.fd < d.fd) && d.fd == Me(s).lastFd && Me(t).lastFd == d.fd + 1
    && WithQueue(s, t, id, [DescriptorPtr(d.ptr, d.block)])
  }

  predicate ExistsAlready(s: State, id: int, mode: int) {
    mode == 1 && id in s.queues
  }

  predicate IsMissing(s: State, id: int, mode: int) {
    mode != 1 && id !in s.queues
  }

  predicate IsTaken(s: State, id: int, mode: int) {
    mode == 4 && id in s.queues && s.queues[id].entries != []
  }

  /** An open that is not refused: the caller has its descriptor, unless none is left in the pool. */
  ghost predicate Granted(s: State, t: State, id: int, c: Call) {
    && AtOnce(s, t, c)
    && if s.descPool.free == [] then
         && Me(t) == Me(s).(call := Some(c), ret := -11) && WithQueue(s, t, id, []) && SamePools(s, t)
       else
         && Me(t).ret >= 0 && t.descPool == s.descPool.Take() && t.ptrPool == s.ptrPool.Take()
         && exists d :: Opened(s, t, id, d) && d.block == s.descPool.free[0]
  }

  /** The three refusals of open, each with its own answer; any other open is granted. */
  ghost predicate OpenEnds(s: State, t: State, id: int, mode: int) {
    var c := Open(id, mode);
    if ExistsAlready(s, id, mode) then Refused(s, t, c, -8)
    else if IsMissing(s, id, mode) then Refused(s, t, c, -9)
    else if IsTaken(s, id, mode) then Refused(s, t, c, -10)
    else Granted(s, t, id, c)
  }

  lemma OpenOutcome(s: State, id: int, mode: int)
    requires Inv(s) && Defined(s, Trap(Open(id, mode)))
    ensures OpenEnds(s, Step(s, Trap(Open(id, mode))), id, mode)
  {
    CallerReady(s, Open(id, mode));
    OpenEntered(s, id, mode);
  }

  lemma OpenEntered(s: State, id: int, mode: int)
    requires Cur(s) in s.procs && QueuesOk(Enter(s, Open(id, mode))) && Handles(Enter(s, Open(id, mode)))
    requires Provided(s, Open(id, mode))
    ensures OpenEnds(s, Step(s, Trap(Open(id, mode))), id, mode)
  {
    OpenSteps(s, id, mode);
    RefusedBy(s, Open(id, mode));
    if !ExistsAlready(s, id, mode) && !IsMissing(s, id, mode) && !IsTaken(s, id, mode) {
      OpenGranted(s, id, Open(id, mode));
    }
  }

  lemma CallerReady(s: State, c: Call)
    requires Inv(s) && s.running.Some?
    ensures Cur(s) in s.procs && QueuesOk(Enter(s, c)) && Handles(Enter(s, c))
  {
    Frames.HeadAlive(s);
    Frames.EnterKeeps(s, c);
  }

  lemma OpenGranted(s: State, id: int, c: Call)
    requires Cur(s) in s.procs && QueuesOk(Enter(s, c)) && Handles(Enter(s, c)) && (id !in s.queues ==> s.mqs.pool.free != [])
    ensures var u := Enter(s, c); Granted(s, Attach(if id in s.queues then u else Create(u, id), id), id, c)
  {
    if id in s.queues {
      AttachOutcome(Enter(s, c), id);
      GrantedThrough(s, Enter(s, c), Attach(Enter(s, c), id), id, c);
    } else {
      CreateGranted(s, id, c);
    }
  }

  lemma CreateGranted(s: State, id: int, c: Call)
    requires Cur(s) in s.procs && QueuesOk(Enter(s, c)) && Handles(Enter(s, c)) && id !in s.queues && s.mqs.pool.free != []
    ensures Granted(s, Attach(Create(Enter(s, c), id), id), id, c)
  {
    var u := Enter(s, c);
    CreateOutcome(u, id);
    GrantedThrough(s, Create(u, id), Attach(Create(u, id), id), id, c);
  }

  lemma OpenSteps(s: State, id: int, mode: int)
    ensures var u := Enter(s, Open(id, mode));
      Step(s, Trap(Open(id, mode))) ==
        if ExistsAlready(s, id, mode) then Return(u, -8)
        else if IsMissing(s, id, mode) then Return(u, -9)
        else if IsTaken(s, id, mode) then Return(u, -10)
        else Attach(if id in s.queues then u else Create(u, id), id)
  { }

  lemma RefusedBy(s: State, c: Call)
    ensures forall v :: v < 0 ==> Refused(s, Return(Enter(s, c), v), c, v)
  { }

  lemma CreateOutcome(s: State, id: int)
    requires QueuesOk(s) && Handles(s) && Cur(s) in s.procs && id !in s.queues && s.mqs.pool.free != []
    ensures var t := Create(s, id);
      && WithQueue(s, t, id, []) && t == s.(queues := t.queues, mqs := t.mqs)
      && AttachedTo(t, Attach(t, id), id)
  {
    QueueCalls.NextIsUnlinked(s);
    QueueCalls.CreateHandles(s, id);
    AttachOutcome(Create(s, id), id);
  }

  /** u is s with the call recorded and the queue there, t is u with the descriptor. */
  lemma GrantedThrough(s: State, u: State, t: State, id: int, c: Call)
    requires Cur(s) in s.procs && WithQueue(s, u, id, []) && u == Enter(s, c).(queues := u.queues, mqs := u.mqs)
    requires AttachedTo(u, t, id)
    ensures Granted(s, t, id, c)
  {
    if s.descPool.free != [] {
      assert Opened(s, t, id, NewHandle(u, id));
    }
  }

  ghost predicate AttachedTo(s: State, t: State, id: int) {
    && t.procs == s.procs[Cur(s) := Me(s).(ret := Me(t).ret, lastFd := Me(t).lastFd, descriptors := Me(t).descriptors)]
    && t.running == s.running && t.ready == s.ready && t.waiting == s.waiting && t.zombie == s.zombie
    && t.timers == s.timers && t.time == s.time && t.lastPid == s.lastPid
    && if s.descPool.free == [] then Me(t) == Me(s).(ret := -11) && t.queues == s.queues && SamePools(s, t)
       else
         && Me(t).ret >= 0 && Opened(s, t, id, NewHandle(s, id))
         && t.descPool == s.descPool.Take() && t.ptrPool == s.ptrPool.Take()
  }

  lemma AttachOutcome(s: State, id: int)
    requires Handles(s) && Cur(s) in s.procs && id in s.queues
    ensures AttachedTo(s, Attach(s, id), id)
  {
    assert FdsGrow(Me(s).descriptors, Me(s).lastFd);
  }

  // ----- close and destroy

  /** The caller has lost descriptor d, its queue the entry for it, and nobody anything else. */
  ghost predicate Closed(s: State, t: State, d: Descriptor) {
    && d in Me(s).descriptors && Me(t).descriptors == Without(Me(s).descriptors, [d]) && Me(t).lastFd == Me(s).lastFd
    && d.mq in s.queues && t.queues.Keys == s.queues.Keys
    && (var was := s.queues[d.mq]; t.queues[d.mq] == was.(entries := Without(was.entries, [DescriptorPtr(d.ptr, d.block)])))
    && (forall i :: i in s.queues && i != d.mq ==> t.queues[i] == s.queues[i])
    && t.descPool == s.descPool.(free := [d.block] + s.descPool.free) && t.ptrPool == t.descPool
  }

  predicate Has(s: State, fd: int) {
    exists d :: d in Me(s).descriptors && d.fd == fd
  }

  lemma {:induction false} DropOne(es: seq<DescriptorPtr>, e: DescriptorPtr)
    requires forall x :: x in es && x.block == e.block ==> x == e
    ensures DropEntries(es, [e.block]) == Without(es, [e])
  {
    if es != [] {
      assert es[0] in es;
      DropOne(es[1..], e);
    }
  }

  lemma WithoutOne(ds: seq<Descriptor>, k: nat, lastFd: nat)
    requires k < |ds| && FdsGrow(ds, lastFd)
    ensures Without(ds, [ds[k]]) == ds[..k] + ds[k + 1..]
  {
    var before, after := ds[..k], ds[k + 1..];
    assert ds == before + ([ds[k]] + after) && ([ds[k]] + after)[1..] == after;
    WithoutAppend(before, [ds[k]] + after, [ds[k]]);
    WithoutNothing(before, [ds[k]]);
    WithoutNothing(after, [ds[k]]);
  }

  /** Close answers 0 and takes both sides of the descriptor away, exactly when the caller has one with this fd. */
  ghost predicate CloseEnds(s: State, t: State, fd: int) {
    var c := Close(fd);
    if !Has(s, fd) then Refused(s, t, c, -12)
    else AtOnce(s, t, c) && Me(t).ret == 0 && exists d: Descriptor :: d.fd == fd && Closed(s, t, d)
  }

  lemma CloseOutcome(s: State, fd: int)
    requires Inv(s) && Defined(s, Trap(Close(fd)))
    ensures CloseEnds(s, Step(s, Trap(Close(fd))), fd)
  {
    CallerReady(s, Close(fd));
    CloseEntered(s, fd);
  }

  lemma CloseEntered(s: State, fd: int)
    requires Cur(s) in s.procs && Handles(Enter(s, Close(fd)))
    ensures CloseEnds(s, Step(s, Trap(Close(fd))), fd)
  {
    var u, ds := Enter(s, Close(fd)), Me(s).descriptors;
    var k := FdIndex(ds, fd);
    if k < |ds| {
      assert ds[k] in ds;
      ReleasedOne(u, k, fd);
      ClosedThrough(s, u, DoClose(u, fd), ds[k]);
    } else {
      RefusedBy(s, Close(fd));
    }
  }

  /** u is s with the call recorded, t is u without the descriptor. */
  lemma ClosedThrough(s: State, u: State, t: State, d: Descriptor)
    requires Cur(s) in s.procs && u == Enter(s, Close(d.fd)) && Me(t).ret == 0 && Closed(u, t, d)
    requires t.procs == u.procs[Cur(u) := Me(u).(ret := Me(t).ret, descriptors := Me(t).descriptors)]
    requires t == u.(procs := t.procs, queues := t.queues, descPool := t.descPool, ptrPool := t.ptrPool)
    ensures Has(s, d.fd) && CloseEnds(s, t, d.fd)
  {
    assert Closed(s, t, d);
  }

  /** What giving back descriptor d leaves of the entries of queue i. */
  lemma EntryGone(s: State, d: Descriptor, i: int)
    requires Handles(s) && Entry(s, d.mq, DescriptorPtr(d.ptr, d.block)) && i in s.queues
    ensures var es, e := s.queues[i].entries, DescriptorPtr(d.ptr, d.block);
      DropEntries(es, Ptrs([d])) == if i == d.mq then Without(es, [e]) else es
  {
    var es, e := s.queues[i].entries, DescriptorPtr(d.ptr, d.block);
    forall x | x in es && x.block == e.block
      ensures x == e && i == d.mq
    {
      assert Entry(s, i, x);
    }
    DropOne(es, e);
    assert Ptrs([d]) == [e.block];
    if i != d.mq {
      WithoutNothing(es, [e]);
    }
  }

  lemma OnePutBack(s: State, d: Descriptor)
    requires s.ptrPool == s.descPool && s.descPool.Out(d.block) && d.ptr == d.block
    ensures var t := Release(s, [d]); t.descPool == s.descPool.(free := [d.block] + s.descPool.free) && t.ptrPool == t.descPool
  {
    assert Blocks([d]) == [d.block] && Ptrs([d]) == [d.ptr];
    Frames.PutOne(s.descPool, d.block);
  }

  lemma ReleasedOne(s: State, k: nat, fd: int)
    requires Handles(s) && Cur(s) in s.procs && k == FdIndex(Me(s).descriptors, fd) < |Me(s).descriptors|
    ensures var t := DoClose(s, fd);
      && Me(t).ret == 0 && Closed(s, t, Me(s).descriptors[k])
      && t.procs == s.procs[Cur(s) := Me(s).(ret := Me(t).ret, descriptors := Me(t).descriptors)]
      && t == s.(procs := t.procs, queues := t.queues, descPool := t.descPool, ptrPool := t.ptrPool)
  {
    var d := Me(s).descriptors[k];
    HandleFacts(s, Cur(s), k);
    OnePutBack(s, d);
    EntriesGone(s, d);
    ClosedFrom(s, DoClose(s, fd), d);
  }

  lemma HandleFacts(s: State, p: Pid, k: nat)
    requires Handles(s) && p in s.procs && k < |s.procs[p].descriptors|
    ensures var ds, d := s.procs[p].descriptors, s.procs[p].descriptors[k];
      && d.ptr == d.block && s.descPool.Out(d.block) && Entry(s, d.mq, DescriptorPtr(d.ptr, d.block)) && s.ptrPool == s.descPool
      && Without(ds, [d]) == ds[..k] + ds[k + 1..]
  {
    assert Holds(s, p, s.procs[p].descriptors[k]) && FdsGrow(s.procs[p].descriptors, s.procs[p].lastFd);
    WithoutOne(s.procs[p].descriptors, k, s.procs[p].lastFd);
  }

  lemma EntriesGone(s: State, d: Descriptor)
    requires Handles(s) && Entry(s, d.mq, DescriptorPtr(d.ptr, d.block))
    ensures forall i :: i in s.queues ==>
              DropEntries(s.queues[i].entries, Ptrs([d])) ==
                if i == d.mq then Without(s.queues[i].entries, [DescriptorPtr(d.ptr, d.block)]) else s.queues[i].entries
  {
    forall i | i in s.queues
      ensures DropEntries(s.queues[i].entries, Ptrs([d])) ==
                if i == d.mq then Without(s.queues[i].entries, [DescriptorPtr(d.ptr, d.block)]) else s.queues[i].entries
    {
      EntryGone(s, d, i);
    }
  }

  lemma ClosedFrom(s: State, t: State, d: Descriptor)
    requires Cur(s) in s.procs && d in Me(s).descriptors && d.mq in s.queues
    requires t == Release(Put(s, Cur(s), Me(s).(descriptors := Without(Me(s).descriptors, [d]), ret := 0)), [d])
    requires Release(s, [d]).descPool == s.descPool.(free := [d.block] + s.descPool.free)
    requires Release(s, [d]).ptrPool == Release(s, [d]).descPool
    requires forall i :: i in s.queues ==>
               DropEntries(s.queues[i].entries, Ptrs([d])) ==
                 if i == d.mq then Without(s.queues[i].entries, [DescriptorPtr(d.ptr, d.block)]) else s.queues[i].entries
    ensures Me(t).ret == 0 && Closed(s, t, d)
    ensures t.procs == s.procs[Cur(s) := Me(s).(ret := Me(t).ret, descriptors := Me(t).descriptors)]
    ensures t == s.(procs := t.procs, queues := t.queues, descPool := t.descPool, ptrPool := t.ptrPool)
  { }

  /** Destroy answers 0 and takes the queue and nothing else away, exactly when it is there and nobody has it open. */
  ghost predicate DestroyEnds(s: State, t: State, id: int) {
    var c := Destroy(id);
    if id !in s.queues then Refused(s, t, c, -12)
    else if s.queues[id].entries != [] then Refused(s, t, c, -13)
    else
      && AtOnce(s, t, c) && Me(t) == Me(s).(call := Some(c), ret := 0)
      && t.queues == s.queues - {id} && t.mqs.pool.free == [s.queues[id].block] + s.mqs.pool.free
      && t.descPool == s.descPool && t.ptrPool == s.ptrPool
  }

  lemma DestroyOutcome(s: State, id: int)
    requires Inv(s) && Defined(s, Trap(Destroy(id)))
    ensures DestroyEnds(s, Step(s, Trap(Destroy(id))), id)
  {
    CallerReady(s, Destroy(id));
    QueueBlockOut(s, id);
    DestroyEntered(s, id);
  }

  lemma QueueBlockOut(s: State, id: int)
    requires QueuesOk(s)
    ensures id in s.queues ==> s.mqs.pool.Out(s.queues[id].block)
  { }

  lemma DestroyEntered(s: State, id: int)
    requires Cur(s) in s.procs && (id in s.queues ==> s.mqs.pool.Out(s.queues[id].block))
    ensures DestroyEnds(s, Step(s, Trap(Destroy(id))), id)
  { }

  // ----- open and then close

  lemma LastTakenOff<T(!new)>(xs: seq<T>, x: T)
    requires x !in xs
    ensures Without(xs + [x], [x]) == xs
  {
    WithoutAppend(xs, [x], [x]);
    WithoutNothing(xs, [x]);
  }

  /** Closing the fd that open answered with undoes the open: the descriptors, all queues there were, and the blocks of both
      pools in their order are as before, and a queue the open created is there and empty. */
  lemma OpenThenClose(s: State, id: int, mode: int)
    requires Inv(s) && Defined(s, Trap(Open(id, mode))) && Me(Step(s, Trap(Open(id, mode)))).ret >= 0
    ensures var t := Step(s, Trap(Open(id, mode))); var u := Step(t, Trap(Close(Me(t).ret)));
      && u.running == s.running && Me(u).ret == 0 && Me(u).descriptors == Me(s).descriptors
      && WithQueue(s, u, id, []) && u.descPool == s.descPool && u.ptrPool == s.ptrPool
  {
    var t := Step(s, Trap(Open(id, mode)));
    OpenGives(s, id, mode);
    Runs.StepKeeps(s, Trap(Open(id, mode)));
    CloseGives(t, Me(t).ret);
    OpenedThenClosed(s, t, Step(t, Trap(Close(Me(t).ret))), id);
  }

  /** A queue that is made, closed and destroyed again leaves no trace among the queues and descriptors. */
  lemma MadeAndDestroyed(s: State, id: int)
    requires Inv(s) && Defined(s, Trap(Open(id, 1))) && id !in s.queues && Me(Step(s, Trap(Open(id, 1)))).ret >= 0
    ensures var t := Step(s, Trap(Open(id, 1))); var u := Step(t, Trap(Close(Me(t).ret))); var v := Step(u, Trap(Destroy(id)));
      && v.running == s.running && Me(v).ret == 0 && v.queues == s.queues
      && Me(v).descriptors == Me(s).descriptors && v.descPool == s.descPool && v.ptrPool == s.ptrPool
  {
    var t := Step(s, Trap(Open(id, 1)));
    var u := Step(t, Trap(Close(Me(t).ret)));
    OpenThenClose(s, id, 1);
    OpenCloseKeeps(s, id, 1);
    DestroyGives(u, id);
    EmptyDestroyed(s, u, Step(u, Trap(Destroy(id))), id);
  }

  lemma OpenCloseKeeps(s: State, id: int, mode: int)
    requires Inv(s) && Defined(s, Trap(Open(id, mode)))
    ensures var t := Step(s, Trap(Open(id, mode))); Inv(Step(t, Trap(Close(Me(t).ret))))
  {
    var t := Step(s, Trap(Open(id, mode)));
    OpenReturns(s, id, mode);
    Runs.StepKeeps(s, Trap(Open(id, mode)));
    Runs.StepKeeps(t, Trap(Close(Me(t).ret)));
  }

  lemma OpenReturns(s: State, id: int, mode: int)
    requires Inv(s) && Defined(s, Trap(Open(id, mode)))
    ensures Step(s, Trap(Open(id, mode))).running == s.running
  {
    OpenOutcome(s, id, mode);
    EndsAtOnce(s, Open(id, mode), Step(s, Trap(Open(id, mode))));
  }

  lemma DestroyGives(s: State, id: int)
    requires Inv(s) && s.running.Some?
    ensures DestroyEnds(s, Step(s, Trap(Destroy(id))), id) && Cur(s) in s.procs
  {
    DestroyOutcome(s, id);
    CallerApart(s);
  }

  lemma EmptyDestroyed(s: State, u: State, v: State, id: int)
    requires WithQueue(s, u, id, []) && id !in s.queues && DestroyEnds(u, v, id) && u.running == s.running && Cur(u) in u.procs
    requires Me(u).descriptors == Me(s).descriptors && u.descPool == s.descPool && u.ptrPool == s.ptrPool
    ensures v.running == s.running && Me(v).ret == 0 && v.queues == s.queues && Me(v).descriptors == Me(s).descriptors
    ensures v.descPool == s.descPool && v.ptrPool == s.ptrPool
  {
    assert u.queues[id].entries == [];
    var left := u.queues - {id};
    assert left.Keys == s.queues.Keys;
    assert forall i :: i in s.queues ==> i != id && left[i] == s.queues[i];
  }

  lemma OpenGives(s: State, id: int, mode: int)
    requires Inv(s) && Defined(s, Trap(Open(id, mode))) && Me(Step(s, Trap(Open(id, mode)))).ret >= 0
    ensures var t := Step(s, Trap(Open(id, mode)));
      && Handles(s) && t.running == s.running && Cur(s) in t.procs && s.descPool.free != [] && Has(t, Me(t).ret)
      && t.descPool == s.descPool.Take() && exists d :: Opened(s, t, id, d) && d.block == s.descPool.free[0]
  {
    OpenOutcome(s, id, mode);
    FdIsThere(s, Step(s, Trap(Open(id, mode))), id);
    Frames.HeadAlive(s);
  }

  lemma CloseGives(s: State, fd: int)
    requires Inv(s) && s.running.Some? && Has(s, fd)
    ensures var t := Step(s, Trap(Close(fd)));
      Handles(s) && t.running == s.running && Me(t).ret == 0 && exists x: Descriptor :: x.fd == fd && Closed(s, t, x)
  {
    CloseOutcome(s, fd);
  }

  lemma FdIsThere(s: State, t: State, id: int)
    requires exists d :: Opened(s, t, id, d)
    ensures Has(t, Me(t).ret)
  {
    var d :| Opened(s, t, id, d);
    assert d in Me(t).descriptors;
  }

  lemma OpenedThenClosed(s: State, t: State, u: State, id: int)
    requires Handles(s) && Handles(t) && t.running == s.running == u.running && Cur(s) in t.procs && s.descPool.free != []
    requires t.descPool == s.descPool.Take() && exists d :: Opened(s, t, id, d) && d.block == s.descPool.free[0]
    requires u.descPool.cap == s.descPool.cap && exists x: Descriptor :: x.fd == Me(t).ret && Closed(t, u, x)
    ensures Me(u).descriptors == Me(s).descriptors && WithQueue(s, u, id, []) && u.descPool == s.descPool && u.ptrPool == s.ptrPool
  {
    var d: Descriptor :| Opened(s, t, id, d) && d.block == s.descPool.free[0];
    var x: Descriptor :| x.fd == d.fd && Closed(t, u, x);
    assert d in Me(t).descriptors;
    SameFdSame(t, x, d);
    NewEntry(s, t, d);
    Undone(s, t, u, id, d);
  }

  lemma SameFdSame(s: State, x: Descriptor, d: Descriptor)
    requires Handles(s) && Cur(s) in s.procs && x in Me(s).descriptors && d in Me(s).descriptors && x.fd == d.fd
    ensures x == d
  {
    assert FdsGrow(Me(s).descriptors, Me(s).lastFd);
  }

  lemma NewEntry(s: State, t: State, d: Descriptor)
    requires Handles(s) && Handles(t) && s.descPool.free != [] && d.block == s.descPool.free[0] && Holds(t, Cur(t), d)
    ensures d.ptr == d.block && DescriptorPtr(d.ptr, d.block) !in QueueAt(s, d.mq).entries
  {
    assert forall e :: Entry(s, d.mq, e) ==> s.descPool.Out(e.block);
  }

  lemma Undone(s: State, t: State, u: State, id: int, d: Descriptor)
    requires Cur(t) == Cur(s) && s.descPool.free != [] && d.block == s.descPool.free[0] && s.ptrPool == s.descPool
    requires Opened(s, t, id, d) && t.descPool == s.descPool.Take() && u.descPool.cap == s.descPool.cap
    requires Cur(u) == Cur(s) && Closed(t, u, d) && DescriptorPtr(d.ptr, d.block) !in QueueAt(s, id).entries
    ensures Me(u).descriptors == Me(s).descriptors && WithQueue(s, u, id, []) && u.descPool == s.descPool && u.ptrPool == s.ptrPool
  {
    LastTakenOff(Me(s).descriptors, d);
    QueueUndone(s, t, u, id, DescriptorPtr(d.ptr, d.block));
    assert [s.descPool.free[0]] + s.descPool.free[1..] == s.descPool.free;
  }

  lemma QueueUndone(s: State, t: State, u: State, id: int, e: DescriptorPtr)
    requires WithQueue(s, t, id, [e]) && e !in QueueAt(s, id).entries && u.queues.Keys == t.queues.Keys
    requires u.queues[id] == t.queues[id].(entries := Without(t.queues[id].entries, [e]))
    requires forall i :: i in t.queues && i != id ==> u.queues[i] == t.queues[i]
    ensures WithQueue(s, u, id, [])
  {
    LastTakenOff(QueueAt(s, id).entries, e);
  }

  // ----- write and read

  /** A write is refused exactly when the message is too long or the queue is not there, blocks exactly when the queue is full,
      and else puts the message last, answers with its length, and wakes all readers. */
  ghost predicate WriteEnds(s: State, t: State, id: int, data: Message) {
    var c, q := Write(id, data), QueueAt(s, id);
    if |data| > 64 then Refused(s, t, c, -146)
    else if id !in s.queues then Refused(s, t, c, -11)
    else if |q.messages| == 256 then Blocked(s, t, c) && t.queues == s.queues[id := q.(writers := q.writers + [Cur(s)])]
    else
      && Woke(s, t, c, q.readers, |data|)
      && t.queues == s.queues[id := q.(messages := q.messages + [data], readers := [], numWritten := |q.messages| + 1)]
  }

  lemma WriteOutcome(s: State, id: int, data: Message)
    requires Inv(s) && Defined(s, Trap(Write(id, data)))
    ensures WriteEnds(s, Step(s, Trap(Write(id, data))), id, data)
  {
    CallerApart(s);
    if id in s.queues {
      Counted(s, id);
    }
    WriteEntered(s, id, data);
  }

  lemma CallerApart(s: State)
    requires Inv(s) && s.running.Some?
    ensures Cur(s) in s.procs && Cur(s) !in s.ready && Cur(s) !in s.waiting
    ensures forall p :: p in s.ready ==> p in s.procs && p !in s.waiting
  {
    Frames.HeadAlive(s);
    Frames.ReadyNotWaiting(s);
  }

  lemma Counted(s: State, id: int)
    requires QueuesOk(s) && id in s.queues
    ensures s.queues[id].numWritten == |s.queues[id].messages| <= MAX_NUM_MESSAGES
    ensures forall p :: p in s.queues[id].readers || p in s.queues[id].writers ==> p in s.waiting
  {
    assert QueueOk(s, id, s.queues[id]);
  }

  lemma WriteEntered(s: State, id: int, data: Message)
    requires Cur(s) in s.procs && Cur(s) !in s.ready && Cur(s) !in s.waiting && (forall p :: p in s.ready ==> p in s.procs)
    requires id in s.queues ==> s.queues[id].numWritten == |s.queues[id].messages|
    requires id in s.queues ==> forall p :: p in s.queues[id].readers ==> p in s.waiting
    requires id in s.queues && |data| <= 64 && |s.queues[id].messages| == 256 ==> s.ready != []
    ensures WriteEnds(s, Step(s, Trap(Write(id, data))), id, data)
  {
    if id in s.queues && |data| <= 64 && |s.queues[id].messages| == 256 {
      BlockedIn(s, JoinWriters(Enter(s, Write(id, data)), id), Write(id, data));
    }
  }

  /** A read blocks exactly when the queue is empty, is refused exactly when the first message does not fit, and else takes the
      first message, answers with its length, and wakes all writers. */
  ghost predicate ReadEnds(s: State, t: State, id: int, room: int) {
    var c, q := Read(id, room), QueueAt(s, id);
    if q.messages == [] then Blocked(s, t, c) && t.queues == s.queues[id := q.(readers := q.readers + [Cur(s)])]
    else if |q.messages[0]| > room then Refused(s, t, c, -15)
    else
      && Woke(s, t, c, q.writers, |q.messages[0]|)
      && t.queues == s.queues[id := q.(messages := q.messages[1..], writers := [], numWritten := |q.messages| - 1)]
      && Copied(s, id, room) == Some(q.messages[0])
  }

  lemma ReadOutcome(s: State, id: int, room: int)
    requires Inv(s) && Defined(s, Trap(Read(id, room)))
    ensures ReadEnds(s, Step(s, Trap(Read(id, room))), id, room)
  {
    CallerApart(s);
    Counted(s, id);
    ReadEntered(s, id, room);
  }

  lemma ReadEntered(s: State, id: int, room: int)
    requires Cur(s) in s.procs && Cur(s) !in s.ready && Cur(s) !in s.waiting && (forall p :: p in s.ready ==> p in s.procs)
    requires id in s.queues && s.queues[id].numWritten == |s.queues[id].messages|
    requires forall p :: p in s.queues[id].writers ==> p in s.waiting
    requires s.queues[id].messages == [] ==> s.ready != []
    ensures ReadEnds(s, Step(s, Trap(Read(id, room))), id, room)
  {
    if s.queues[id].messages == [] {
      BlockedIn(s, JoinReaders(Enter(s, Read(id, room)), id), Read(id, room));
    }
  }

  // ----- fork

  /** The new process is the last on the ready list and on the caller's list of children, has nothing yet, and its pid, which is
      higher than any other, is the caller's answer. */
  ghost predicate ForkEnds(s: State, t: State) {
    var c := s.lastPid;
    && (forall p :: p in s.procs ==> p < c) && t.procs.Keys == s.procs.Keys + {c} && t.lastPid == c + 1
    && Me(t) == Me(s).(call := Some(Fork), ret := c, children := Me(s).children + [c])
    && t.procs[c] == Pcb(Ready, Some(Cur(s)), [], 0, None, 0, 0, false, 0, [])
    && (forall p :: p in s.procs && p != Cur(s) ==> t.procs[p] == s.procs[p])
    && t.ready == s.ready + [c] && t.running == s.running && t.waiting == s.waiting && t.zombie == s.zombie
    && t.timers == s.timers && t.time == s.time && t.queues == s.queues && SamePools(s, t)
  }

  lemma ForkOutcome(s: State)
    requires Inv(s) && Defined(s, Trap(Fork))
    ensures ForkEnds(s, Step(s, Trap(Fork)))
  {
    CallerApart(s);
    PidsBelow(s);
    ForkEntered(s);
  }

  lemma PidsBelow(s: State)
    requires Places(s)
    ensures forall p :: p in s.procs ==> p < s.lastPid
  { }

  lemma ForkEntered(s: State)
    requires Cur(s) in s.procs && forall p :: p in s.procs ==> p < s.lastPid
    ensures ForkEnds(s, Step(s, Trap(Fork)))
  { }

  // ----- wait and exit

  /** The caller has taken its child k, which had exited: its pid is the answer, its exit value is in the caller's cell, if there is
      one, and k is gone. */
  ghost predicate Took(s: State, t: State, c: Call, k: Pid, hasCell: bool) {
    var me := Me(s);
    && Me(t) == me.(call := Some(c), ret := k, children := Without(me.children, [k]),
                    cell := if hasCell then At(s, k).exitValue else me.cell)
    && t.procs.Keys == s.procs.Keys - {k} && (forall p :: p in t.procs && p != Cur(s) ==> t.procs[p] == s.procs[p])
    && t.zombie == Without(s.zombie, [k]) && t.running == s.running && t.ready == s.ready && t.waiting == s.waiting
    && t.timers == s.timers && t.time == s.time && t.lastPid == s.lastPid && t.queues == s.queues && SamePools(s, t)
  }

  /** A wait is refused exactly when the caller has no children. It takes the child that the scan ends on if that one has exited;
      else it blocks. */
  ghost predicate WaitEnds(s: State, t: State, pid: int, hasCell: bool) {
    var c, kids := Wait(pid, hasCell), Me(s).children;
    if kids == [] then Refused(s, t, c, -5)
    else if At(s, Scan(s, kids, pid)).status == Zombie then Took(s, t, c, Scan(s, kids, pid), hasCell)
    else Blocked(s, t, c) && t.queues == s.queues
  }

  lemma WaitOutcome(s: State, pid: int, hasCell: bool)
    requires Inv(s) && Defined(s, Trap(Wait(pid, hasCell)))
    ensures WaitEnds(s, Step(s, Trap(Wait(pid, hasCell))), pid, hasCell)
  {
    CallerApart(s);
    var kids := Me(s).children;
    if kids != [] {
      Processes.ScanFinds(s, kids, pid);
      Processes.SameScan(s, Enter(s, Wait(pid, hasCell)), kids, pid);
      assert Kid(s, Cur(s), Scan(s, kids, pid));
    }
    WaitEntered(s, pid, hasCell);
  }

  lemma WaitEntered(s: State, pid: int, hasCell: bool)
    requires Cur(s) in s.procs && Cur(s) !in s.ready && (forall p :: p in s.ready ==> p in s.procs)
    requires Me(s).children != [] ==>
               var k := Scan(s, Me(s).children, pid);
               && Scan(Enter(s, Wait(pid, hasCell)), Me(s).children, pid) == k != Cur(s)
               && (At(s, k).status != Zombie ==> s.ready != [])
    ensures WaitEnds(s, Step(s, Trap(Wait(pid, hasCell))), pid, hasCell)
  {
    var c, kids := Wait(pid, hasCell), Me(s).children;
    WaitSteps(s, pid, hasCell);
    if kids == [] {
      RefusedBy(s, c);
    } else if At(s, Scan(s, kids, pid)).status == Zombie {
      WaitTook(s, Scan(s, kids, pid), c, hasCell);
    } else {
      BlockedIn(s, Enter(s, c), c);
    }
  }

  lemma WaitSteps(s: State, pid: int, hasCell: bool)
    requires Me(s).children != [] ==>
               var k := Scan(s, Me(s).children, pid); Scan(Enter(s, Wait(pid, hasCell)), Me(s).children, pid) == k != Cur(s)
    ensures var c, kids := Wait(pid, hasCell), Me(s).children;
      Step(s, Trap(c)) ==
        if kids == [] then Return(Enter(s, c), -5)
        else if At(s, Scan(s, kids, pid)).status == Zombie then Reap(Enter(s, c), Scan(s, kids, pid), hasCell)
        else Dispatch(Suspend(Enter(s, c)), false)
  { }

  /** Blocking in a call, once it is recorded and, for a read or a write, the caller has joined the queue's waiters. */
  lemma BlockedIn(s: State, u: State, c: Call)
    requires Cur(s) in s.procs && Cur(s) !in s.ready && s.ready != [] && (forall p :: p in s.ready ==> p in s.procs)
    requires u == Enter(s, c).(queues := u.queues, pcbPtrFree := u.pcbPtrFree)
    ensures var t := Dispatch(Suspend(u), !c.Wait?); Blocked(s, t, c) && t.queues == u.queues
  { }

  lemma WaitTook(s: State, k: Pid, c: Call, hasCell: bool)
    requires Cur(s) in s.procs && k != Cur(s)
    ensures Took(s, Reap(Enter(s, c), k, hasCell), c, k, hasCell)
  { }

  /** The children that q has when the running process has given its own away. */
  function Heirs(s: State, q: Pid): seq<Pid> {
    if q == INIT then At(s, q).children + Me(s).children else At(s, q).children
  }

  /** p is blocked in a wait for any child or for c. */
  ghost predicate WaitsFor(s: State, p: Pid, c: Pid) {
    p in s.waiting && exists hasCell :: At(s, p).call == Some(Wait(0, hasCell)) || At(s, p).call == Some(Wait(c, hasCell))
  }

  lemma AwaitsMeans(s: State, p: Pid, c: Pid)
    requires Places(s)
    ensures AwaitsExitOf(s, p, c) <==> WaitsFor(s, p, c)
  {
    if AwaitsExitOf(s, p, c) {
      var x := At(s, p).call.value;
      assert x == Wait(x.pid, x.hasCell);
    }
  }

  /** An exit gives the caller's children in order to init, behind those it has. If the caller's parent is blocked in a wait for
      it, that one runs, with the pid as answer and the exit value in its cell, if there is one, and the caller is gone with all
      entries for its descriptors; else the caller is a zombie with its exit value. */
  ghost predicate ExitEnds(s: State, t: State, value: int) {
    && Me(s).parent.Some?
    && var r, p := Cur(s), Me(s).parent.value;
    && t.timers == s.timers && t.time == s.time && t.lastPid == s.lastPid
    && if WaitsFor(s, p, r) then
         && t.running == Some(p) && t.ready == s.ready && t.waiting == Without(s.waiting, [p]) && t.zombie == s.zombie
         && t.procs.Keys == s.procs.Keys - {r} && p in t.procs
         && t.procs[p] == s.procs[p].(status := Running, ret := r, children := Without(Heirs(s, p), [r]),
                                      cell := if s.procs[p].call.value.hasCell then value else s.procs[p].cell)
         && (forall q :: q in t.procs && q != p ==> t.procs[q] == s.procs[q].(children := Heirs(s, q)))
         && t.queues.Keys == s.queues.Keys && (forall i :: i in s.queues ==> t.queues[i] == s.queues[i].(entries := t.queues[i].entries))
         && (forall i, e :: Entry(t, i, e) <==> Entry(s, i, e) && e.block !in Ptrs(Me(s).descriptors))
         && t.descPool == s.descPool.PutAll(Blocks(Me(s).descriptors)) && t.ptrPool == s.ptrPool.PutAll(Ptrs(Me(s).descriptors))
       else
         && s.ready != [] && t.running == Some(s.ready[0]) && t.ready == s.ready[1..] && t.zombie == s.zombie + [r]
         && t.waiting == s.waiting && t.procs.Keys == s.procs.Keys && t.queues == s.queues && SamePools(s, t)
         && Me(s).(call := Some(Exit(value)), status := Zombie, exitValue := value, children := []) == At(t, r)
         && (forall q :: q in t.procs && q != r ==>
               t.procs[q] == s.procs[q].(children := Heirs(s, q), status := if q == s.ready[0] then Running else s.procs[q].status))
  }

  lemma ExitOutcome(s: State, value: int)
    requires Inv(s) && Defined(s, Trap(Exit(value)))
    ensures ExitEnds(s, Step(s, Trap(Exit(value))), value)
  {
    CallerApart(s);
    Processes.ParentIsOther(s);
    InitThere(s);
    AwaitsMeans(s, Me(s).parent.value, Cur(s));
    ExitEntered(s, value);
  }

  lemma InitThere(s: State)
    requires Places(s)
    ensures INIT in s.procs
  { }

  lemma ExitEntered(s: State, value: int)
    requires Cur(s) in s.procs && Cur(s) !in s.ready && (forall p :: p in s.ready ==> p in s.procs)
    requires INIT in s.procs && Cur(s) != INIT && Me(s).parent.Some? && Me(s).parent.value in s.procs && Me(s).parent.value != Cur(s)
    requires AwaitsExitOf(s, Me(s).parent.value, Cur(s)) <==> WaitsFor(s, Me(s).parent.value, Cur(s))
    requires !AwaitsExitOf(s, Me(s).parent.value, Cur(s)) ==> s.ready != []
    ensures ExitEnds(s, Step(s, Trap(Exit(value))), value)
  {
    ExitSteps(s, value);
    if AwaitsExitOf(s, Me(s).parent.value, Cur(s)) {
      ExitDelivered(s, value, Me(s).parent.value);
    } else {
      ExitBuried(s, value);
    }
  }

  lemma ExitSteps(s: State, value: int)
    requires Me(s).parent.Some? && Me(s).parent.value != Cur(s)
    ensures var d, p := Depart(Enter(s, Exit(value)), value), Me(s).parent.value;
      Step(s, Trap(Exit(value))) == if AwaitsExitOf(s, p, Cur(s)) then Deliver(d, p) else Dispatch(Bury(d), true)
  { }

  lemma ExitDelivered(s: State, value: int, p: Pid)
    requires Cur(s) in s.procs && INIT in s.procs && Cur(s) != INIT && p in s.procs && p != Cur(s) && Me(s).parent == Some(p)
    requires AwaitsExitOf(s, p, Cur(s)) && WaitsFor(s, p, Cur(s))
    ensures ExitEnds(s, Deliver(Depart(Enter(s, Exit(value)), value), p), value)
  { }

  lemma ExitBuried(s: State, value: int)
    requires Cur(s) in s.procs && INIT in s.procs && Cur(s) != INIT && Cur(s) !in s.ready
    requires s.ready != [] && (forall p :: p in s.ready ==> p in s.procs)
    requires Me(s).parent.Some? && !WaitsFor(s, Me(s).parent.value, Cur(s))
    ensures ExitEnds(s, Dispatch(Bury(Depart(Enter(s, Exit(value)), value)), true), value)
  { }

  // ----- schedules

  /** The processes ps, which slept, those who were ready, and who was running, in that order, are the one who runs and those who
      are ready. */
  ghost predicate Turned(s: State, t: State, ps: seq<Pid>) {
    && t.running.Some? && [Cur(t)] + t.ready == ps + s.ready + [Cur(s)] && t.waiting == Without(s.waiting, ps)
    && t.zombie == s.zombie && t.lastPid == s.lastPid && t.queues == s.queues && t.procs.Keys == s.procs.Keys
  }

  /** If there was somebody to take over, the one who runs now is marked as running, the one before as ready, and the processes
      ps too. */
  function Mark(s: State, t: State, ps: seq<Pid>, p: Pid): Status {
    if ps + s.ready == [] then At(s, p).status
    else if p == Cur(t) then Running
    else if p == Cur(s) || p in ps then Ready
    else At(s, p).status
  }

  /** A preempt or an interrupt: the sleepers whose time has come are woken in the order of their timers, in front of everybody,
      and the processor goes round by one. Nobody's answer changes. */
  ghost predicate ScheduleEnds(s: State, t: State, e: Event) {
    var now := if e.Interrupt? then s.time + 1 else s.time;
    var n := Due(s.timers, now);
    var ps := TimerPids(s.timers[..n]);
    && Turned(s, t, ps) && t.timers == s.timers[n..] && t.time == now && SamePools(s, t)
    && forall p :: p in s.procs ==>
         t.procs[p] == s.procs[p].(status := Mark(s, t, ps, p), hasTimer := t.procs[p].hasTimer, call := Recorded(s, e, p))
  }

  /** The call in p's control block once e has begun. */
  function Recorded(s: State, e: Event, p: Pid): Option<Call> {
    if e.Trap? && p == Cur(s) then Some(e.call) else At(s, p).call
  }

  lemma ScheduleOutcome(s: State, e: Event)
    requires Inv(s) && Defined(s, e) && Dispatching.Schedules(e)
    ensures ScheduleEnds(s, Step(s, e), e)
  {
    CallerApart(s);
    TimersWait(s);
    ScheduleEntered(s, e);
  }

  lemma TimersWait(s: State)
    requires Places(s) && Sleepers(s)
    ensures forall i :: 0 <= i < |s.timers| ==> s.timers[i].pid in s.procs && s.timers[i].pid in s.waiting
  { }

  lemma ScheduleEntered(s: State, e: Event)
    requires s.running.Some? && Cur(s) in s.procs && Cur(s) !in s.ready && Cur(s) !in s.waiting && Dispatching.Schedules(e)
    requires forall p :: p in s.ready ==> p in s.procs && p !in s.waiting
    requires forall i :: 0 <= i < |s.timers| ==> s.timers[i].pid in s.procs && s.timers[i].pid in s.waiting
    ensures ScheduleEnds(s, Step(s, e), e)
  {
    var u := if e.Interrupt? then Clock(s) else Enter(s, Preempt);
    var w, ps := WakeSleepers(u), TimerPids(s.timers[..Due(s.timers, u.time)]);
    forall p | p in ps
      ensures p in s.procs && p in s.waiting
    { }
    RotateTurns(w);
    ScheduleFrom(s, e, u, w, Rotate(w), ps);
  }

  lemma RotateTurns(s: State)
    requires s.running.Some? && Cur(s) in s.procs && Cur(s) !in s.ready && (forall p :: p in s.ready ==> p in s.procs)
    ensures var t := Rotate(s);
      && Turned(s, t, []) && t == s.(running := t.running, ready := t.ready, procs := t.procs)
      && forall p :: p in s.procs ==> t.procs[p] == s.procs[p].(status := Mark(s, t, [], p))
  {
    if s.ready != [] {
      RotateSteps(s);
      RotatedFrom(s, Rotate(s));
    } else {
      WithoutNothing(s.waiting, []);
    }
  }

  lemma RotatedFrom(s: State, t: State)
    requires Cur(s) in s.procs && s.ready != [] && s.ready[0] in s.procs && s.ready[0] != Cur(s)
    requires t.running == Some(s.ready[0]) && t.ready == s.ready[1..] + [Cur(s)]
    requires t == s.(running := t.running, ready := t.ready, procs := t.procs)
    requires t.procs == s.procs[Cur(s) := s.procs[Cur(s)].(status := Ready)][s.ready[0] := s.procs[s.ready[0]].(status := Running)]
    ensures Turned(s, t, []) && forall p :: p in s.procs ==> t.procs[p] == s.procs[p].(status := Mark(s, t, [], p))
  {
    WithoutNothing(s.waiting, []);
    assert [Cur(t)] + t.ready == [] + s.ready + [Cur(s)];
    forall p | p in s.procs
      ensures t.procs[p] == s.procs[p].(status := Mark(s, t, [], p))
    {
      RotatedMark(s, t, p);
    }
  }

  lemma RotatedMark(s: State, t: State, p: Pid)
    requires Cur(s) in s.procs && s.ready != [] && s.ready[0] in s.procs && s.ready[0] != Cur(s) && p in s.procs
    requires t.running == Some(s.ready[0])
    requires t.procs == s.procs[Cur(s) := s.procs[Cur(s)].(status := Ready)][s.ready[0] := s.procs[s.ready[0]].(status := Running)]
    ensures t.procs[p] == s.procs[p].(status := Mark(s, t, [], p))
  {
    assert [] + s.ready == s.ready;
  }

  lemma RotateSteps(s: State)
    requires Cur(s) in s.procs && Cur(s) !in s.ready && s.ready != [] && (forall p :: p in s.ready ==> p in s.procs)
    ensures var t, n, r := Rotate(s), s.ready[0], Cur(s);
      && n != r && t.running == Some(n) && t.ready == s.ready[1..] + [r]
      && t == s.(running := t.running, ready := t.ready, procs := t.procs)
      && t.procs == s.procs[r := s.procs[r].(status := Ready)][n := s.procs[n].(status := Running)]
  { }

  lemma ScheduleFrom(s: State, e: Event, u: State, w: State, t: State, ps: seq<Pid>)
    requires s.running.Some? && Dispatching.Schedules(e) && Cur(s) in s.procs
    requires u == if e.Interrupt? then Clock(s) else Enter(s, Preempt)
    requires ps == TimerPids(s.timers[..Due(s.timers, u.time)]) && w == WakeSleepers(u)
    requires Turned(w, t, []) && t == w.(running := t.running, ready := t.ready, procs := t.procs)
    requires forall p :: p in w.procs ==> t.procs[p] == w.procs[p].(status := Mark(w, t, [], p))
    ensures ScheduleEnds(s, t, e)
  {
    TurnedFrom(s, w, t, ps);
    AllMarkedFrom(s, e, u, w, t, ps);
  }

  lemma AllMarkedFrom(s: State, e: Event, u: State, w: State, t: State, ps: seq<Pid>)
    requires Cur(w) == Cur(s) && w.ready == ps + s.ready && w.procs.Keys == s.procs.Keys == t.procs.Keys
    requires Dispatching.Schedules(e) && u == (if e.Interrupt? then Clock(s) else Enter(s, Preempt)) && w.procs == Readied(u.procs, ps)
    requires forall p :: p in w.procs ==> t.procs[p] == w.procs[p].(status := Mark(w, t, [], p))
    ensures forall p :: p in s.procs ==>
              t.procs[p] == s.procs[p].(status := Mark(s, t, ps, p), hasTimer := t.procs[p].hasTimer, call := Recorded(s, e, p))
  {
    forall p | p in s.procs
      ensures t.procs[p] == s.procs[p].(status := Mark(s, t, ps, p), hasTimer := t.procs[p].hasTimer, call := Recorded(s, e, p))
    {
      MarkedFrom(s, e, u, w, t, ps, p);
    }
  }

  lemma TurnedFrom(s: State, w: State, t: State, ps: seq<Pid>)
    requires Turned(w, t, []) && Cur(w) == Cur(s) && w.ready == ps + s.ready && w.waiting == Without(s.waiting, ps)
    requires w.zombie == s.zombie && w.lastPid == s.lastPid && w.queues == s.queues && w.procs.Keys == s.procs.Keys
    ensures Turned(s, t, ps)
  {
    assert [] + w.ready + [Cur(w)] == ps + s.ready + [Cur(s)];
    WithoutNothing(w.waiting, []);
  }

  lemma MarkedFrom(s: State, e: Event, u: State, w: State, t: State, ps: seq<Pid>, p: Pid)
    requires Cur(w) == Cur(s) && w.ready == ps + s.ready && p in s.procs && p in w.procs && p in t.procs
    requires Dispatching.Schedules(e) && u == if e.Interrupt? then Clock(s) else Enter(s, Preempt)
    requires w.procs == Readied(u.procs, ps)
    requires t.procs[p] == w.procs[p].(status := Mark(w, t, [], p))
    ensures t.procs[p] == s.procs[p].(status := Mark(s, t, ps, p), hasTimer := t.procs[p].hasTimer, call := Recorded(s, e, p))
  {
    assert [] + w.ready == ps + s.ready;
  }

  // ----- sleep

  /** ts with one more timer, for p at this time: behind those that are not later, before those that are. */
  ghost predicate Timed(before: seq<Timer>, after: seq<Timer>, p: Pid, time: int) {
    exists k :: 0 <= k <= |before| && |after| == |before| + 1 && after == before[..k] + [after[k]] + before[k..]
      && after[k].pid == p && after[k].time == time
      && (forall i :: 0 <= i < k ==> before[i].time <= time) && (forall i :: k <= i < |before| ==> time < before[i].time)
  }

  /** A sleep is never refused: the caller waits, with a timer for that many interrupts from now, and the head of the ready list
      runs, if there is one, without being marked as running. */
  ghost predicate SleepEnds(s: State, t: State, cycles: int) {
    && t.waiting == s.waiting + [Cur(s)] && Timed(s.timers, t.timers, Cur(s), s.time + cycles)
    && (if s.ready == [] then t.running == None && t.ready == [] else t.running == Some(s.ready[0]) && t.ready == s.ready[1..])
    && t.zombie == s.zombie && t.time == s.time && t.lastPid == s.lastPid && t.queues == s.queues && SamePools(s, t)
    && t.procs == s.procs[Cur(s) := Me(s).(call := Some(Sleep(cycles)), status := Waiting)]
  }

  lemma SleepOutcome(s: State, cycles: int)
    requires Inv(s) && Defined(s, Trap(Sleep(cycles)))
    ensures SleepEnds(s, Step(s, Trap(Sleep(cycles))), cycles)
  {
    Dispatching.SleepNeverFails(s);
    SleepEntered(s, cycles);
  }

  lemma SleepEntered(s: State, cycles: int)
    requires s.running.Some? && !Me(s).hasTimer && s.timerPool.free != [] && TimersOrdered(s.timers)
    ensures SleepEnds(s, Step(s, Trap(Sleep(cycles))), cycles)
  {
    InsertedIsTimed(s.timers, Timer(s.timerPool.free[0], s.time + cycles, Cur(s)));
    SleepSteps(s, cycles);
    SleepRead(s, Step(s, Trap(Sleep(cycles))), cycles, Timer(s.timerPool.free[0], s.time + cycles, Cur(s)));
  }

  lemma SleepRead(s: State, t: State, cycles: int, x: Timer)
    requires t.waiting == s.waiting + [Cur(s)] && t.timers == InsertTimer(s.timers, x) && x.time == s.time + cycles && x.pid == Cur(s)
    requires Timed(s.timers, InsertTimer(s.timers, x), x.pid, x.time)
    requires if s.ready == [] then t.running == None && t.ready == [] else t.running == Some(s.ready[0]) && t.ready == s.ready[1..]
    requires t.zombie == s.zombie && t.time == s.time && t.lastPid == s.lastPid && t.queues == s.queues && SamePools(s, t)
    requires t.procs == s.procs[Cur(s) := Me(s).(call := Some(Sleep(cycles)), status := Waiting)]
    ensures SleepEnds(s, t, cycles)
  { }

  lemma SleepSteps(s: State, cycles: int)
    requires s.running.Some? && !Me(s).hasTimer && s.timerPool.free != []
    ensures var t := Step(s, Trap(Sleep(cycles)));
      && t.waiting == s.waiting + [Cur(s)]
      && t.timers == InsertTimer(s.timers, Timer(s.timerPool.free[0], s.time + cycles, Cur(s)))
      && (if s.ready == [] then t.running == None && t.ready == [] else t.running == Some(s.ready[0]) && t.ready == s.ready[1..])
      && t.zombie == s.zombie && t.time == s.time && t.lastPid == s.lastPid && t.queues == s.queues && SamePools(s, t)
      && t.procs == s.procs[Cur(s) := Me(s).(call := Some(Sleep(cycles)), status := Waiting)]
  {
    var u := SetTimer(Enter(s, Sleep(cycles)), cycles);
    assert Step(s, Trap(Sleep(cycles))) == Dispatch(Suspend(u), false);
    SuspendedProcs(s, u, Sleep(cycles));
  }

  lemma SuspendedProcs(s: State, u: State, c: Call)
    requires u.procs == Enter(s, c).procs && u.running == s.running && u.ready == s.ready
    ensures Dispatch(Suspend(u), false).procs == s.procs[Cur(s) := Me(s).(call := Some(c), status := Waiting)]
  { }

  lemma InsertedIsTimed(ts: seq<Timer>, x: Timer)
    requires TimersOrdered(ts)
    ensures Timed(ts, InsertTimer(ts, x), x.pid, x.time)
  {
    var k, after := Due(ts, x.time), InsertTimer(ts, x);
    assert after[k] == x && after == ts[..k] + [after[k]] + ts[k..];
    assert forall i :: k <= i < |ts| ==> x.time < ts[i].time;
  }

  // ----- every step

  ghost predicate CallEnds(s: State, t: State, c: Call) {
    match c
    case Preempt => ScheduleEnds(s, t, Trap(c))
    case Fork => ForkEnds(s, t)
    case Sleep(cycles) => SleepEnds(s, t, cycles)
    case Wait(pid, hasCell) => WaitEnds(s, t, pid, hasCell)
    case Exit(value) => ExitEnds(s, t, value)
    case Open(id, mode) => OpenEnds(s, t, id, mode)
    case Close(fd) => CloseEnds(s, t, fd)
    case Destroy(id) => DestroyEnds(s, t, id)
    case Write(id, data) => WriteEnds(s, t, id, data)
    case Read(id, room) => ReadEnds(s, t, id, room)
  }

  /** What event e comes to: t is a state that it may leave behind. */
  ghost predicate Ends(s: State, e: Event, t: State) {
    match e
    case Interrupt => ScheduleEnds(s, t, e)
    case Trap(c) => CallEnds(s, t, c)
  }

  lemma StepEnds(s: State, e: Event)
    requires Inv(s) && Defined(s, e)
    ensures Ends(s, e, Step(s, e))
  {
    match e
    case Interrupt => ScheduleOutcome(s, e);
    case Trap(c) => CallOutcome(s, c);
  }

  lemma CallOutcome(s: State, c: Call)
    requires Inv(s) && Defined(s, Trap(c))
    ensures CallEnds(s, Step(s, Trap(c)), c)
  {
    match c
    case Preempt => ScheduleOutcome(s, Trap(c));
    case Fork => ForkOutcome(s);
    case Sleep(cycles) => SleepOutcome(s, cycles);
    case Wait(pid, hasCell) => WaitOutcome(s, pid, hasCell);
    case Exit(value) => ExitOutcome(s, value);
    case Open(id, mode) => OpenOutcome(s, id, mode);
    case Close(fd) => CloseOutcome(s, fd);
    case Destroy(id) => DestroyOutcome(s, id);
    case Write(id, data) => WriteOutcome(s, id, data);
    case Read(id, room) => ReadOutcome(s, id, room);
  }

  lemma EndsAtOnce(s: State, c: Call, t: State)
    requires CallEnds(s, t, c) && (c.Open? || c.Close? || c.Destroy?)
    ensures AtOnce(s, t, c)
  { }
}
