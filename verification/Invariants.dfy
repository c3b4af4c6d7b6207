/** What holds in every reachable state of the kernel. */
module Invariants {
  import opened Lists
  import PoolAllocator
  import Links
  import opened Machine

  ghost predicate Active(s: State, p: Pid) {
    s.running == Some(p) || p in s.ready
  }

  /** Every live process is in exactly one place, and its status tells whether that is the waiting or the zombie list. */
  ghost predicate Places(s: State) {
    && NoDup(s.ready) && NoDup(s.waiting) && NoDup(s.zombie)
    && (s.running.Some? ==> s.running.value !in s.ready)
    && (forall p :: Active(s, p) ==> p in s.procs && (s.procs[p].status == Running || s.procs[p].status == Ready))
    && (forall p :: p in s.waiting ==> p in s.procs && s.procs[p].status == Waiting)
    && (forall p :: p in s.zombie ==> p in s.procs && s.procs[p].status == Zombie)
    && (forall p :: p in s.procs ==>
          match s.procs[p].status
          case Waiting => p in s.waiting
          case Zombie => p in s.zombie
          case _ => Active(s, p))
    && (forall p :: p in s.procs ==> p < s.lastPid && !s.procs[p].hasTimer)
    && s.pcbFree + |s.procs| == MAX_NUM_PROCESSES && s.pcbFree >= 0
    && s.lastPid > INIT && INIT in s.procs && s.procs[INIT].status != Zombie
  }

  predicate Asleep(s: State, p: Pid) {
    At(s, p).call.Some? && At(s, p).call.value.Sleep?
  }

  predicate InWait(s: State, p: Pid) {
    At(s, p).call.Some? && At(s, p).call.value.Wait?
  }

  predicate ReadsFrom(s: State, p: Pid, id: int) {
    At(s, p).call.Some? && At(s, p).call.value.Read? && At(s, p).call.value.id == id
  }

  predicate WritesTo(s: State, p: Pid, id: int) {
    At(s, p).call.Some? && At(s, p).call.value.Write? && At(s, p).call.value.id == id
  }

  ghost predicate HasTimer(s: State, p: Pid) {
    exists i :: 0 <= i < |s.timers| && s.timers[i].pid == p
  }

  /** The timers hold every block of the pool that is out, each its own. */
  ghost predicate TimerPoolOk(p: PoolAllocator.Pool, ts: seq<Timer>) {
    && p.Valid() && p.cap == MAX_NUM_PROCESSES
    && |p.free| + |ts| == MAX_NUM_PROCESSES
    && (forall i :: 0 <= i < |ts| ==> p.Out(ts[i].block))
    && (forall i, j :: 0 <= i < j < |ts| ==> ts[i].block != ts[j].block)
  }

  /** Timers are in the order of their times, and nobody has two. */
  ghost predicate TimersOrdered(ts: seq<Timer>) {
    && (forall i, j :: 0 <= i < j < |ts| ==> ts[i].time <= ts[j].time)
    && (forall i, j :: 0 <= i < j < |ts| ==> ts[i].pid != ts[j].pid)
  }

  /** The timers are exactly those of the sleeping processes. */
  ghost predicate TimersOfSleepers(s: State) {
    && (forall i :: 0 <= i < |s.timers| ==> s.timers[i].pid in s.waiting && Asleep(s, s.timers[i].pid))
    && (forall p :: p in s.waiting && Asleep(s, p) ==> HasTimer(s, p))
  }

  ghost predicate Sleepers(s: State) {
    TimerPoolOk(s.timerPool, s.timers) && TimersOrdered(s.timers) && TimersOfSleepers(s)
  }

  /** A process waits in one of the four calls that can block. */
  ghost predicate Reasons(s: State) {
    forall p :: p in s.waiting ==>
      At(s, p).call.Some? &&
      (At(s, p).call.value.Sleep? || At(s, p).call.value.Wait? || At(s, p).call.value.Read? || At(s, p).call.value.Write?)
  }

  ghost predicate QueueOk(s: State, id: int, q: Queue) {
    && q.numWritten == |q.messages| <= MAX_NUM_MESSAGES
    && (forall m :: m in q.messages ==> |m| <= MAX_LEN_MESSAGE)
    && (q.readers != [] ==> q.messages == [])
    && (q.writers != [] ==> |q.messages| == MAX_NUM_MESSAGES)
    && NoDup(q.readers) && NoDup(q.writers)
    && (forall p :: p in q.readers ==> p in s.waiting && ReadsFrom(s, p, id))
    && (forall p :: p in q.writers ==> p in s.waiting && WritesTo(s, p, id))
  }

  /** The links of the queue blocks thread mq_list and no free block carries one; every block of the pool is free or on the
      list, and the blocks on the list are those of the queues, each its own. */
  ghost predicate TableOk(t: QueueTable, queues: map<int, Queue>) {
    && t.pool.Valid() && t.pool.cap == MAX_NUM_MESSAGEQUEUES
    && |t.pool.free| + |t.list| == MAX_NUM_MESSAGEQUEUES && |queues| == |t.list|
    && Links.Threads(t.links, t.list)
    && (forall b :: b !in t.list ==> !Links.Carries(t.links, b))
    && (forall b :: b in t.list ==> t.pool.Out(b))
    && (forall id :: id in queues ==> queues[id].block in t.list)
    && (forall i, j :: i in queues && j in queues && queues[i].block == queues[j].block ==> i == j)
  }

  /** Counters tell the truth, waiters wait for something that is not there, and they wait once. */
  ghost predicate QueuesOk(s: State) {
    && TableOk(s.mqs, s.queues)
    && (forall id :: id in s.queues ==> QueueOk(s, id, s.queues[id]))
  }

  predicate Kid(s: State, p: Pid, c: Pid) {
    p in s.procs && c in s.procs[p].children
  }

  predicate Dead(s: State, p: Pid) {
    p !in s.procs || s.procs[p].status == Zombie
  }

  /** Only init has no parent; c is on the list of the process it was born to, unless that one has exited. */
  predicate Listed(s: State, c: Pid) {
    match At(s, c).parent
    case None => c == INIT
    case Some(p) => p < c && (Dead(s, p) || Kid(s, p, c))
  }

  /** The children lists: nobody twice, only live processes, and every process on the list of the parent it was born to as
      long as that one has not exited. */
  ghost predicate Family(s: State) {
    && (forall p :: p in s.procs ==> NoDup(s.procs[p].children))
    && (forall p, c :: Kid(s, p, c) ==> c in s.procs && p < c && !Dead(s, p))
    && (forall p, q, c :: Kid(s, p, c) && Kid(s, q, c) ==> p == q)
    && (forall c {:trigger Listed(s, c)} :: c in s.procs ==> Listed(s, c))
  }

  predicate Holds(s: State, p: Pid, d: Descriptor) {
    p in s.procs && d in s.procs[p].descriptors
  }

  predicate Entry(s: State, id: int, e: DescriptorPtr) {
    id in s.queues && e in s.queues[id].entries
  }

  ghost predicate FdsGrow(ds: seq<Descriptor>, lastFd: nat) {
    && (forall i, j :: 0 <= i < j < |ds| ==> ds[i].fd < ds[j].fd)
    && (forall i :: 0 <= i < |ds| ==> ds[i].fd < lastFd)
  }

  ghost predicate BlocksDiffer(es: seq<DescriptorPtr>) {
    forall i, j :: 0 <= i < j < |es| ==> es[i].block != es[j].block
  }

  /** The two descriptor pools move in lockstep, and every descriptor has its entry in its queue, in the block of the same
      number of the other pool. */
  ghost predicate Handles(s: State) {
    && s.descPool.Valid() && s.descPool.cap == MAX_NUM_PROCESSES
    && s.ptrPool == s.descPool
    && (forall p :: p in s.procs ==> FdsGrow(s.procs[p].descriptors, s.procs[p].lastFd))
    && (forall p, d :: Holds(s, p, d) ==>
          d.ptr == d.block && s.descPool.Out(d.block) && Entry(s, d.mq, DescriptorPtr(d.ptr, d.block)))
    && (forall p, q, d, e :: Holds(s, p, d) && Holds(s, q, e) && d.block == e.block ==> p == q && d == e)
    && (forall id :: id in s.queues ==> BlocksDiffer(s.queues[id].entries))
    && (forall id, e :: Entry(s, id, e) ==> e.descriptor == e.block && s.descPool.Out(e.block))
    && (forall i, j, d, e :: Entry(s, i, d) && Entry(s, j, e) && d.block == e.block ==> i == j)
  }

  ghost predicate Inv(s: State) {
    Places(s) && Sleepers(s) && Reasons(s) && QueuesOk(s) && Family(s) && Handles(s)
  }

  lemma BootInv()
    ensures Inv(Boot())
  {
    BootLists();
    BootTables();
  }

  lemma BootLists()
    ensures Places(Boot()) && Sleepers(Boot()) && Reasons(Boot())
  { }

  lemma BootTables()
    ensures QueuesOk(Boot()) && Family(Boot()) && Handles(Boot())
  { }
}
