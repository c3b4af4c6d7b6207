/** Where every process is and what it waits for, and which queues there are, after every run. */
module WhoIsWhere {
  import opened Lists
  import Links
  import opened Machine
  import opened Invariants
  import Dispatching
  import Outcomes
  import Runs
  import Waiters
  import QueueCalls

  function Running(s: State): seq<Pid> {
    if s.running.Some? then [s.running.value] else []
  }

  /** In every reachable state the running process and the ready, waiting and zombie lists together are the live processes,
      each of them exactly once. */
  lemma EveryoneOnce(s: State)
    requires Inv(s)
    ensures multiset(Running(s)) + multiset(s.ready) + multiset(s.waiting) + multiset(s.zombie) == multiset(s.procs.Keys)
  {
    NoDupMultiset(s.ready);
    NoDupMultiset(s.waiting);
    NoDupMultiset(s.zombie);
    forall p: Pid
      ensures p in s.waiting ==> !Active(s, p) && p !in s.zombie
      ensures p in s.zombie ==> !Active(s, p)
      ensures p in s.procs <==> Active(s, p) || p in s.waiting || p in s.zombie
    { }
  }

  /** What can make a waiting process ready: a timer, a place among the readers or the writers of a queue, or the exit of a
      child it waits for. */
  datatype Reason = OnTimer(index: nat) | AmongReaders(id: int, place: nat) | AmongWriters(id: int, place: nat) | OnExit

  ghost predicate WokenBy(s: State, p: Pid, r: Reason) {
    match r
    case OnTimer(i) => i < |s.timers| && s.timers[i].pid == p
    case AmongReaders(id, k) => id in s.queues && k < |s.queues[id].readers| && s.queues[id].readers[k] == p
    case AmongWriters(id, k) => id in s.queues && k < |s.queues[id].writers| && s.queues[id].writers[k] == p
    case OnExit => InWait(s, p)
  }

  ghost predicate AtMostOneReason(s: State, p: Pid) {
    forall q, r :: WokenBy(s, p, q) && WokenBy(s, p, r) ==> q == r
  }

  ghost predicate SomeReason(s: State, p: Pid) {
    exists r :: WokenBy(s, p, r)
  }

  /** A reason goes with the call the process is blocked in. */
  lemma ReasonIsTheCall(s: State, p: Pid, r: Reason)
    requires Inv(s) && p in s.waiting && WokenBy(s, p, r)
    ensures match r
            case OnTimer(_) => Asleep(s, p)
            case AmongReaders(id, _) => ReadsFrom(s, p, id)
            case AmongWriters(id, _) => WritesTo(s, p, id)
            case OnExit => InWait(s, p)
  {
    match r
    case AmongReaders(id, k) => assert QueueOk(s, id, s.queues[id]) && p in s.queues[id].readers;
    case AmongWriters(id, k) => assert QueueOk(s, id, s.queues[id]) && p in s.queues[id].writers;
    case _ =>
  }

  lemma ReasonsExclude(s: State, p: Pid)
    requires Inv(s) && p in s.waiting
    ensures AtMostOneReason(s, p)
  {
    forall q, r | WokenBy(s, p, q) && WokenBy(s, p, r)
      ensures q == r
    {
      ReasonIsTheCall(s, p, q);
      ReasonIsTheCall(s, p, r);
      if q.AmongReaders? || q.AmongWriters? {
        assert QueueOk(s, q.id, s.queues[q.id]);
      }
    }
  }

  /** A process that is blocked, and not stranded, has a reason: the entry its call made is still there. */
  lemma ReasonExists(s: State, p: Pid)
    requires Inv(s) && p in s.waiting && Waiters.NoneStranded(s)
    ensures SomeReason(s, p)
  {
    var c := At(s, p).call.value;
    if c.Sleep? {
      assert HasTimer(s, p);
      var i :| 0 <= i < |s.timers| && s.timers[i].pid == p;
      assert WokenBy(s, p, OnTimer(i));
    } else if c.Wait? {
      assert WokenBy(s, p, OnExit);
    } else if c.Read? {
      assert ReadsFrom(s, p, c.id);
      var k :| 0 <= k < |s.queues[c.id].readers| && s.queues[c.id].readers[k] == p;
      assert WokenBy(s, p, AmongReaders(c.id, k));
    } else {
      assert WritesTo(s, p, c.id);
      var k :| 0 <= k < |s.queues[c.id].writers| && s.queues[c.id].writers[k] == p;
      assert WokenBy(s, p, AmongWriters(c.id, k));
    }
  }

  lemma ReasonMeansListed(s: State, p: Pid, id: int)
    requires Inv(s) && p in s.waiting && SomeReason(s, p)
    ensures ReadsFrom(s, p, id) ==> id in s.queues && p in s.queues[id].readers
    ensures WritesTo(s, p, id) ==> id in s.queues && p in s.queues[id].writers
  {
    var r :| WokenBy(s, p, r);
    ReasonIsTheCall(s, p, r);
  }

  /** Every waiting process has exactly one reason to be woken, one timer, one place in one queue, or a wait, if and only if
      nobody is stranded at a queue that is gone; a stranded process has none. */
  lemma OneReason(s: State)
    requires Inv(s)
    ensures forall p :: p in s.waiting ==> AtMostOneReason(s, p)
    ensures (forall p :: p in s.waiting ==> SomeReason(s, p)) <==> Waiters.NoneStranded(s)
  {
    forall p | p in s.waiting
      ensures AtMostOneReason(s, p)
      ensures Waiters.NoneStranded(s) ==> SomeReason(s, p)
    {
      ReasonsExclude(s, p);
      if Waiters.NoneStranded(s) {
        ReasonExists(s, p);
      }
    }
    if forall p :: p in s.waiting ==> SomeReason(s, p) {
      forall p, id | p in s.waiting
        ensures ReadsFrom(s, p, id) ==> id in s.queues && p in s.queues[id].readers
        ensures WritesTo(s, p, id) ==> id in s.queues && p in s.queues[id].writers
      {
        ReasonMeansListed(s, p, id);
      }
    }
  }

  /** In every run in which processes use only queues they hold open, everybody who waits has exactly one reason. */
  lemma OneReasonInRuns(es: seq<Event>, p: Pid)
    requires ValidRun(Boot(), es) && Runs.Along(Boot(), es, Waiters.UsesOwn) && p in Run(Boot(), es).waiting
    ensures AtMostOneReason(Run(Boot(), es), p) && SomeReason(Run(Boot(), es), p)
  {
    BootInv();
    Runs.RunKeeps(Boot(), es);
    Waiters.WakeupsFromBoot(es);
    OneReason(Run(Boot(), es));
  }

  /** After every run from the start everybody is in one place, nobody has two reasons to be woken, and control blocks, queues
      and timers take up exactly the blocks of their pools that are not free. */
  lemma EveryRun(es: seq<Event>)
    requires ValidRun(Boot(), es)
    ensures var t := Run(Boot(), es);
      && multiset(Running(t)) + multiset(t.ready) + multiset(t.waiting) + multiset(t.zombie) == multiset(t.procs.Keys)
      && (forall p :: p in t.waiting ==> AtMostOneReason(t, p))
      && t.pcbFree + |t.procs| == 2048 && t.pcbFree >= 0 && |t.mqs.pool.free| + |t.queues| == 4
      && |t.timerPool.free| + |t.timers| == 2048
  {
    BootInv();
    Runs.RunKeeps(Boot(), es);
    EveryoneOnce(Run(Boot(), es));
    OneReason(Run(Boot(), es));
  }

  /** What a queue's counter and waiters tell after every run: the counter is the number of messages and never above the
      limit, readers wait only for an empty queue and writers only for a full one, so never both, and nobody waits twice. */
  lemma QueueInOrder(es: seq<Event>, id: int)
    requires ValidRun(Boot(), es) && id in Run(Boot(), es).queues
    ensures var q := Run(Boot(), es).queues[id];
      && q.numWritten == |q.messages| && 0 <= q.numWritten <= 256
      && (q.readers != [] ==> q.messages == [] && q.writers == [])
      && (q.writers != [] ==> |q.messages| == 256 && q.readers == [])
      && NoDup(q.readers) && NoDup(q.writers)
  {
    BootInv();
    Runs.RunKeeps(Boot(), es);
    assert QueueOk(Run(Boot(), es), id, Run(Boot(), es).queues[id]);
  }

  // ----- the directory of queues

  /** e is a create of queue id, successful or not: afterwards the queue is there. */
  predicate Creates(e: Event, id: int) {
    e == Trap(Open(id, DSOS_CREATE))
  }

  /** e destroys queue id. */
  predicate Destroys(s: State, e: Event, id: int) {
    e == Trap(Destroy(id)) && id in s.queues && s.queues[id].entries == []
  }

  lemma DirectoryStep(s: State, e: Event, id: int)
    requires Inv(s) && Defined(s, e)
    ensures id in Step(s, e).queues <==> Creates(e, id) || (id in s.queues && !Destroys(s, e, id))
  {
    Outcomes.StepEnds(s, e);
    EndsDirectory(s, e, Step(s, e), id);
  }

  lemma EndsDirectory(s: State, e: Event, t: State, id: int)
    requires Outcomes.Ends(s, e, t) && (e.Trap? && e.call.Read? ==> e.call.id in s.queues)
    ensures id in t.queues <==> Creates(e, id) || (id in s.queues && !Destroys(s, e, id))
  { }

  /** Queue id was created in the run, or was there at its start, and has not been destroyed since. */
  predicate StandsAfter(s: State, es: seq<Event>, id: int)
    decreases |es|
  {
    if es == [] then id in s.queues
    else
      var n := |es| - 1;
      Creates(es[n], id) || (StandsAfter(s, es[..n], id) && !Destroys(Run(s, es[..n]), es[n], id))
  }

  /** A queue is found after a run if and only if it was created, or there from the start, and not destroyed since. */
  lemma {:induction false} DirectoryFollowsRun(s: State, es: seq<Event>, id: int)
    requires Inv(s) && ValidRun(s, es)
    ensures id in Run(s, es).queues <==> StandsAfter(s, es, id)
    decreases |es|
  {
    if es != [] {
      var n := |es| - 1;
      Runs.RunLast(s, es);
      Runs.ValidLast(s, es);
      DirectoryFollowsRun(s, es[..n], id);
      Runs.RunKeeps(s, es[..n]);
      DirectoryStep(Run(s, es[..n]), es[n], id);
    }
  }

  /** t is s with an empty queue of this id, open to nobody but perhaps the caller, at the end of mq_list and in the first free
      block. */
  ghost predicate QueueAdded(s: State, t: State, id: int) {
    && t.queues.Keys == s.queues.Keys + {id} && (forall i :: i in s.queues ==> t.queues[i] == s.queues[i])
    && t.queues[id] == NEW_QUEUE.(block := NextBlock(s.mqs), entries := t.queues[id].entries) && |t.queues[id].entries| <= 1
    && t.mqs.list == s.mqs.list + [NextBlock(s.mqs)] && t.mqs.pool == s.mqs.pool.Take()
  }

  lemma CreateThenAttach(s: State, id: int)
    requires id !in s.queues && !Links.Carries(s.mqs.links, NextBlock(s.mqs))
    ensures QueueAdded(s, DoOpen(s, id, DSOS_CREATE), id)
  { }

  lemma CreateAddsQueue(s: State, id: int)
    requires id !in s.queues && !Links.Carries(s.mqs.links, NextBlock(s.mqs))
    ensures QueueAdded(s, Step(s, Trap(Open(id, DSOS_CREATE))), id)
  {
    CreateThenAttach(Enter(s, Open(id, DSOS_CREATE)), id);
  }

  /** After every run from the start the links of the queue blocks thread mq_list, no free block carries one, and a create of a
      new id is never refused by List_insert. */
  lemma CreateIsNeverRefused(es: seq<Event>, id: int)
    requires ValidRun(Boot(), es)
    ensures var s := Run(Boot(), es);
      && Links.Threads(s.mqs.links, s.mqs.list)
      && (forall x :: x in s.mqs.pool.free ==> x !in s.mqs.list && !Links.Carries(s.mqs.links, x))
      && (id !in s.queues && Defined(s, Trap(Open(id, DSOS_CREATE))) ==>
            QueueAdded(s, Step(s, Trap(Open(id, DSOS_CREATE))), id))
  {
    BootInv();
    Runs.RunKeeps(Boot(), es);
    FreeBlocksUnlinked(Run(Boot(), es));
    CreateIsAccepted(Run(Boot(), es), id);
  }

  lemma CreateIsAccepted(s: State, id: int)
    requires QueuesOk(s)
    ensures id !in s.queues && Defined(s, Trap(Open(id, DSOS_CREATE))) ==>
              QueueAdded(s, Step(s, Trap(Open(id, DSOS_CREATE))), id)
  {
    if id !in s.queues && s.mqs.pool.free != [] {
      QueueCalls.NextIsUnlinked(s);
      CreateAddsQueue(s, id);
    }
  }

  lemma FreeBlocksUnlinked(s: State)
    requires QueuesOk(s)
    ensures forall x :: x in s.mqs.pool.free ==> x !in s.mqs.list && !Links.Carries(s.mqs.links, x)
  {
    forall x | x in s.mqs.pool.free
      ensures x !in s.mqs.list
    {
      assert !s.mqs.pool.Out(x);
    }
  }

  /** The check matters: a create that is given a block with a link makes no queue. */
  lemma LinkedBlockIsRefused(s: State, id: int)
    requires id !in s.queues
    ensures id in DoOpen(s, id, DSOS_CREATE).queues <==> !Links.Carries(s.mqs.links, NextBlock(s.mqs))
  { }

  // ----- what the control blocks say

  /** Everybody on the ready list is marked as ready. */
  ghost predicate ReadyMarked(s: State) {
    forall p :: p in s.ready ==> At(s, p).status == Ready
  }

  /** Whoever takes over the processor is marked as running, unless a sleep or a wait gave it up. */
  ghost predicate RunnerMarked(s: State, e: Event, t: State) {
    t.running.Some? ==>
      Me(t).status ==
        if t.running == s.running then Me(s).status
        else if e.Trap? && (e.call.Sleep? || e.call.Wait?) then Ready
        else Status.Running
  }

  lemma StatusStep(s: State, e: Event)
    requires Inv(s) && Defined(s, e) && ReadyMarked(s)
    ensures ReadyMarked(Step(s, e)) && RunnerMarked(s, e, Step(s, e))
  {
    Outcomes.StepEnds(s, e);
    Runs.StepKeeps(s, e);
    ListedOnce(s);
    ListedOnce(Step(s, e));
    EndsStatus(s, e, Step(s, e));
  }

  lemma ListedOnce(s: State)
    requires Places(s)
    ensures Apart(s)
  { }

  /** The lists of s and t keep what matters for the marks. */
  ghost predicate Apart(s: State) {
    && NoDup(s.ready) && (s.running.Some? ==> Cur(s) in s.procs)
    && forall p :: p in s.ready ==> s.running != Some(p) && p in s.procs
  }

  lemma EndsStatus(s: State, e: Event, t: State)
    requires Outcomes.Ends(s, e, t) && ReadyMarked(s) && s.running.Some? && Apart(s) && Apart(t)
    ensures ReadyMarked(t) && RunnerMarked(s, e, t)
  {
    if Dispatching.Schedules(e) {
      ScheduleStatus(s, e, t);
    } else if e.call.Open? || e.call.Close? || e.call.Destroy? {
      Outcomes.EndsAtOnce(s, e.call, t);
    } else if e.call.Write? || e.call.Read? {
      MessageStatus(s, e.call, t);
    } else {
      ProcessStatus(s, e.call, t);
    }
  }

  lemma ScheduleStatus(s: State, e: Event, t: State)
    requires Outcomes.ScheduleEnds(s, t, e) && Dispatching.Schedules(e) && ReadyMarked(s) && s.running.Some? && Apart(s) && Apart(t)
    ensures ReadyMarked(t) && RunnerMarked(s, e, t)
  {
    var ps := TimerPids(s.timers[..Due(s.timers, t.time)]);
    var ring := ps + s.ready + [Cur(s)];
    assert ring == [Cur(t)] + t.ready;
    forall p | p in t.ready
      ensures At(t, p).status == Ready
    {
      assert p in ring;
    }
    if ps + s.ready != [] {
      assert Cur(s) == ring[|ring| - 1] == t.ready[|t.ready| - 1];
      assert Cur(s) in t.ready;
    } else {
      assert ring == [Cur(s)] && ring[0] == Cur(t);
    }
  }

  lemma BlockedStatus(s: State, c: Call, t: State)
    requires Outcomes.Blocked(s, t, c) && !c.Sleep? && ReadyMarked(s) && s.running.Some? && Apart(s) && Apart(t)
    ensures ReadyMarked(t) && RunnerMarked(s, Trap(c), t)
  {
    assert s.ready[0] in s.ready;
    forall p | p in t.ready
      ensures At(t, p).status == Ready
    {
      assert p in s.ready;
    }
  }

  lemma WokeStatus(s: State, c: Call, t: State, ps: seq<Pid>, v: int)
    requires Outcomes.Woke(s, t, c, ps, v) && ReadyMarked(s) && s.running.Some? && Apart(s) && Apart(t)
    ensures ReadyMarked(t) && RunnerMarked(s, Trap(c), t)
  {
    forall p | p in t.ready
      ensures At(t, p).status == Ready
    {
      assert p in s.ready || p in ps;
    }
  }

  lemma MessageStatus(s: State, c: Call, t: State)
    requires Outcomes.CallEnds(s, t, c) && (c.Write? || c.Read?) && ReadyMarked(s) && s.running.Some? && Apart(s) && Apart(t)
    ensures ReadyMarked(t) && RunnerMarked(s, Trap(c), t)
  {
    var q := QueueAt(s, c.id);
    if Outcomes.Blocked(s, t, c) {
      BlockedStatus(s, c, t);
    } else if c.Write? && |c.data| <= 64 && c.id in s.queues {
      WokeStatus(s, c, t, q.readers, |c.data|);
    } else if c.Read? && |q.messages[0]| <= c.room {
      WokeStatus(s, c, t, q.writers, |q.messages[0]|);
    }
  }

  lemma ProcessStatus(s: State, c: Call, t: State)
    requires Outcomes.CallEnds(s, t, c) && (c.Fork? || c.Sleep? || c.Wait? || c.Exit?)
    requires ReadyMarked(s) && s.running.Some? && Apart(s) && Apart(t)
    ensures ReadyMarked(t) && RunnerMarked(s, Trap(c), t)
  {
    if Outcomes.Blocked(s, t, c) && !c.Sleep? {
      BlockedStatus(s, c, t);
    } else {
      assert s.ready != [] ==> s.ready[0] in s.ready;
      forall p | p in t.ready
        ensures At(t, p).status == Ready
      {
        assert p in s.ready || c.Fork?;
      }
    }
  }

  /** After every run from the start. */
  lemma StatusInRuns(es: seq<Event>)
    requires ValidRun(Boot(), es)
    ensures ReadyMarked(Run(Boot(), es))
    ensures forall e :: Defined(Run(Boot(), es), e) ==> RunnerMarked(Run(Boot(), es), e, Step(Run(Boot(), es), e))
  {
    BootInv();
    StatusStays(Boot(), es);
    Runs.RunKeeps(Boot(), es);
    forall e | Defined(Run(Boot(), es), e)
      ensures RunnerMarked(Run(Boot(), es), e, Step(Run(Boot(), es), e))
    {
      StatusStep(Run(Boot(), es), e);
    }
  }

  lemma {:induction false} StatusStays(s: State, es: seq<Event>)
    requires Inv(s) && ValidRun(s, es) && ReadyMarked(s)
    ensures ReadyMarked(Run(s, es))
    decreases |es|
  {
    if es != [] {
      StatusStep(s, es[0]);
      Runs.StepKeeps(s, es[0]);
      StatusStays(Step(s, es[0]), es[1..]);
    }
  }
}
