/** The kernel as a state machine: its global state and what each syscall and the timer interrupt do to it. */
module Machine {
  import opened Lists
  import PoolAllocator
  import Links

  const MAX_NUM_PROCESSES := 2048
  const MAX_NUM_MESSAGEQUEUES := 4
  const MAX_NUM_MESSAGES := 256
  const MESSAGE_BLOCKS := 327680 // MAX_NUM_MESSAGES * MAX_NUM_MESSAGEQUEUES * MESSAGES_EXTRA * 10
  const MAX_LEN_MESSAGE := 64

  const DSOS_EWAIT := -5
  const DSOS_ESLEEP := -7
  const DSOS_ERESOURCECREATE := -8
  const DSOS_ERESOURCEOPEN := -9
  const DSOS_ERESOURCENOEXCL := -10
  const DSOS_ERESOURCENOFD := -11
  const DSOS_ERESOURCECLOSE := -12
  const DSOS_ERESOURCEINUSE := -13
  const ESHORTBUFFER := -15
  const EWOKEN := -20
  const ETOOLONG := -146

  const DSOS_CREATE := 1
  const DSOS_EXCL := 4

  type Pid = nat
  const INIT: Pid := 0

  newtype byte = b: int | 0 <= b < 256
  type Message = seq<byte>

  datatype Status = Running | Ready | Waiting | Zombie

  /** A syscall with its arguments, as the caller leaves it in its process control block. */
  datatype Call =
    | Preempt
    | Fork
    | Sleep(cycles: int)
    | Wait(pid: int, hasCell: bool) // hasCell: the caller passed a place for the child's exit value
    | Exit(value: int)
    | Open(id: int, mode: int)
    | Close(fd: int)
    | Destroy(id: int)
    | Write(id: int, data: Message)
    | Read(id: int, room: int)

  /** A process's handle on a queue; ptr is the block of the queue's entry for it. */
  datatype Descriptor = Descriptor(block: int, fd: nat, mq: int, ptr: int)

  /** A queue's entry for a handle on it; descriptor is the block of that handle. */
  datatype DescriptorPtr = DescriptorPtr(block: int, descriptor: int)

  datatype Timer = Timer(block: int, time: int, pid: Pid)

  datatype Pcb = Pcb(
    status: Status,
    parent: Option<Pid>,
    children: seq<Pid>,
    exitValue: int,
    call: Option<Call>,
    ret: int,
    cell: int, // what the process finds where it told wait to leave the exit value
    hasTimer: bool,
    lastFd: nat,
    descriptors: seq<Descriptor>)

  datatype Queue = Queue(
    block: int, // of the pool of queues
    entries: seq<DescriptorPtr>,
    messages: seq<Message>,
    numWritten: int,
    readers: seq<Pid>,
    writers: seq<Pid>)

  /** The blocks of the queue pool: the free ones, those on mq_list in its order, and the link fields of all of them. Taking
      a block leaves its links as they are. */
  datatype QueueTable = QueueTable(pool: PoolAllocator.Pool, list: seq<int>, links: Links.Links<int>)

  datatype State = State(
    time: int,
    lastPid: Pid,
    running: Option<Pid>,
    ready: seq<Pid>,
    waiting: seq<Pid>,
    zombie: seq<Pid>,
    timers: seq<Timer>,
    procs: map<Pid, Pcb>,
    queues: map<int, Queue>,
    timerPool: PoolAllocator.Pool,
    descPool: PoolAllocator.Pool,
    ptrPool: PoolAllocator.Pool,
    pcbFree: int,
    pcbPtrFree: int,
    mqs: QueueTable,
    msgFree: int)

  const NEW_PCB := Pcb(Ready, None, [], 0, None, 0, 0, false, 0, [])
  const NEW_QUEUE := Queue(0, [], [], 0, [], [])

  /** The state disastrOS_start leaves: init is running and every list is empty. */
  function Boot(): State {
    State(0, 1, Some(INIT), [], [], [], [], map[INIT := NEW_PCB.(status := Running)], map[],
          PoolAllocator.Full(MAX_NUM_PROCESSES), PoolAllocator.Full(MAX_NUM_PROCESSES), PoolAllocator.Full(MAX_NUM_PROCESSES),
          MAX_NUM_PROCESSES - 1, MAX_NUM_PROCESSES,
          QueueTable(PoolAllocator.Full(MAX_NUM_MESSAGEQUEUES), [], Links.Links(map[], map[])), MESSAGE_BLOCKS)
  }

  // ----- reading and writing the state

  function Cur(s: State): Pid {
    if s.running.Some? then s.running.value else INIT
  }

  function At(s: State, p: Pid): Pcb {
    if p in s.procs then s.procs[p] else NEW_PCB
  }

  function Me(s: State): Pcb {
    At(s, Cur(s))
  }

  function QueueAt(s: State, id: int): Queue {
    if id in s.queues then s.queues[id] else NEW_QUEUE
  }

  function Put(s: State, p: Pid, x: Pcb): State {
    s.(procs := s.procs[p := x])
  }

  function PutQueue(s: State, id: int, q: Queue): State {
    s.(queues := s.queues[id := q])
  }

  function Return(s: State, v: int): State {
    Put(s, Cur(s), Me(s).(ret := v))
  }

  /** disastrOS_syscall: the caller's control block records the call before the trap. */
  function Enter(s: State, c: Call): State {
    Put(s, Cur(s), Me(s).(call := Some(c)))
  }

  // ----- scheduling

  /** The head of the ready list becomes the running process. Sleep and wait do not mark it Running, the others do. */
  function Dispatch(s: State, mark: bool): State {
    if s.ready == [] then s.(running := None)
    else
      var n := s.ready[0];
      var s1 := s.(running := Some(n), ready := s.ready[1..]);
      if mark then Put(s1, n, At(s1, n).(status := Running)) else s1
  }

  /** The running process joins the end of the waiting list; nobody runs until the next dispatch. */
  function Suspend(s: State): State {
    Put(s, Cur(s), Me(s).(status := Waiting)).(waiting := s.waiting + [Cur(s)], running := None)
  }

  /** The running process joins the end of the ready list. */
  function StepBack(s: State): State {
    Put(s, Cur(s), Me(s).(status := Ready)).(ready := s.ready + [Cur(s)], running := None)
  }

  /** The running process joins the end of the zombie list. */
  function Bury(s: State): State {
    Put(s, Cur(s), Me(s).(status := Zombie)).(zombie := s.zombie + [Cur(s)], running := None)
  }

  /** procs with every process in ps made Ready. */
  function Readied(procs: map<Pid, Pcb>, ps: seq<Pid>): map<Pid, Pcb> {
    map p | p in procs :: if p in ps then procs[p].(status := Ready, hasTimer := false) else procs[p]
  }

  /** procs with every process in ps made Ready and told its call has to be tried again. */
  function Retried(procs: map<Pid, Pcb>, ps: seq<Pid>): map<Pid, Pcb> {
    map p | p in procs :: if p in ps then procs[p].(status := Ready, ret := EWOKEN) else procs[p]
  }

  /** The processes blocked on a queue go to the end of the ready list, in order. */
  function WakeBlocked(s: State, ps: seq<Pid>): State {
    s.(waiting := Without(s.waiting, ps), ready := s.ready + ps, procs := Retried(s.procs, ps))
  }

  /** How many leading timers are not later than now. */
  function Due(ts: seq<Timer>, now: int): (n: nat)
    ensures n <= |ts|
    ensures forall i :: 0 <= i < n ==> ts[i].time <= now
    ensures n < |ts| ==> now < ts[n].time
  {
    if ts == [] || now < ts[0].time then 0 else 1 + Due(ts[1..], now)
  }

  function TimerPids(ts: seq<Timer>): (ps: seq<Pid>)
    ensures |ps| == |ts| && forall i :: 0 <= i < |ts| ==> ps[i] == ts[i].pid
  {
    seq(|ts|, i requires 0 <= i < |ts| => ts[i].pid)
  }

  function TimerBlocks(ts: seq<Timer>): (bs: seq<int>)
    ensures |bs| == |ts| && forall i :: 0 <= i < |ts| ==> bs[i] == ts[i].block
  {
    seq(|ts|, i requires 0 <= i < |ts| => ts[i].block)
  }

  /** The sleepers whose time has come go in front of the ready list, in timer order. */
  function WakeSleepers(s: State): State {
    var n := Due(s.timers, s.time);
    var ps := TimerPids(s.timers[..n]);
    s.(timers := s.timers[n..],
       timerPool := s.timerPool.PutAll(TimerBlocks(s.timers[..n])),
       waiting := Without(s.waiting, ps),
       ready := ps + s.ready,
       procs := Readied(s.procs, ps))
  }

  /** The running process goes to the end of the ready list and the head of the ready list runs. */
  function Rotate(s: State): State {
    if s.ready == [] then s else Dispatch(StepBack(s), true)
  }

  /** internal_schedule */
  function Schedule(s: State): State {
    Rotate(WakeSleepers(s))
  }

  function Clock(s: State): State {
    s.(time := s.time + 1)
  }

  /** timerInterrupt */
  function Tick(s: State): State {
    Schedule(Clock(s))
  }

  // ----- processes

  /** TimerList_add's place for a new timer: behind every timer that is not later. */
  function InsertTimer(ts: seq<Timer>, t: Timer): seq<Timer> {
    var k := Due(ts, t.time);
    ts[..k] + [t] + ts[k..]
  }

  /** The running process gets a timer. */
  function SetTimer(s: State, cycles: int): State
    requires s.timerPool.free != []
  {
    s.(timers := InsertTimer(s.timers, Timer(s.timerPool.free[0], s.time + cycles, Cur(s))), timerPool := s.timerPool.Take())
  }

  /** internal_sleep */
  function DoSleep(s: State, cycles: int): State {
    if Me(s).hasTimer || s.timerPool.free == [] then Return(s, DSOS_ESLEEP)
    else Dispatch(Suspend(SetTimer(s, cycles)), false)
  }

  /** internal_fork, and what internal_spawn does to the kernel's tables */
  function DoFork(s: State): State {
    var c := s.lastPid;
    var s1 := Put(s, c, NEW_PCB.(parent := Some(Cur(s))));
    var s2 := Put(s1, Cur(s), At(s1, Cur(s)).(children := Me(s).children + [c], ret := c));
    s2.(lastPid := c + 1, ready := s.ready + [c], pcbFree := s.pcbFree - 1, pcbPtrFree := s.pcbPtrFree - 1)
  }

  /** Where the scan of the children ends: at the first match, else at the last child. */
  function Scan(s: State, kids: seq<Pid>, pid: int): Pid
    requires kids != []
  {
    if |kids| == 1 || (if pid == 0 then At(s, kids[0]).status == Zombie else kids[0] == pid) then kids[0]
    else Scan(s, kids[1..], pid)
  }

  /** The running process once its wait has returned the zombie child c. */
  function Informed(s: State, c: Pid, hasCell: bool): Pcb {
    var me := Me(s);
    me.(children := Without(me.children, [c]), ret := c, cell := if hasCell then At(s, c).exitValue else me.cell)
  }

  /** The zombie child c is handed to its parent and disappears. */
  function Reap(s: State, c: Pid, hasCell: bool): State {
    var s1 := Put(s, Cur(s), Informed(s, c, hasCell));
    s1.(procs := s1.procs - {c}, zombie := Without(s.zombie, [c]),
        pcbFree := s.pcbFree + 1, pcbPtrFree := s.pcbPtrFree + 1)
  }

  /** internal_wait */
  function DoWait(s: State, pid: int, hasCell: bool): State {
    if Me(s).children == [] then Return(s, DSOS_EWAIT)
    else
      var c := Scan(s, Me(s).children, pid);
      if At(s, c).status == Zombie then Reap(s, c, hasCell) else Dispatch(Suspend(s), false)
  }

  /** Process p is blocked in a wait that the exit of c ends. */
  predicate AwaitsExitOf(s: State, p: Pid, c: Pid) {
    && At(s, p).status == Waiting
    && At(s, p).call.Some? && At(s, p).call.value.Wait?
    && (At(s, p).call.value.pid == 0 || At(s, p).call.value.pid == c)
  }

  /** The children of the running process are moved to the end of init's; their parent link is left as it is. */
  function Reparent(s: State): State {
    var kids := Me(s).children;
    var s1 := Put(s, Cur(s), Me(s).(children := []));
    Put(s1, INIT, At(s1, INIT).(children := At(s1, INIT).children + kids))
  }

  function Blocks(ds: seq<Descriptor>): (bs: seq<int>)
    ensures |bs| == |ds| && forall i :: 0 <= i < |ds| ==> bs[i] == ds[i].block
  {
    seq(|ds|, i requires 0 <= i < |ds| => ds[i].block)
  }

  function Ptrs(ds: seq<Descriptor>): (bs: seq<int>)
    ensures |bs| == |ds| && forall i :: 0 <= i < |ds| ==> bs[i] == ds[i].ptr
  {
    seq(|ds|, i requires 0 <= i < |ds| => ds[i].ptr)
  }

  /** es without the entries in the blocks bs. */
  function DropEntries(es: seq<DescriptorPtr>, bs: seq<int>): (r: seq<DescriptorPtr>)
    ensures forall e :: e in r <==> e in es && e.block !in bs
  {
    if es == [] then []
    else if es[0].block in bs then DropEntries(es[1..], bs)
    else [es[0]] + DropEntries(es[1..], bs)
  }

  /** Both sides of the descriptors ds go: the queues' entries and the blocks of both pools. */
  function Release(s: State, ds: seq<Descriptor>): State {
    s.(queues := map id | id in s.queues :: s.queues[id].(entries := DropEntries(s.queues[id].entries, Ptrs(ds))),
       descPool := s.descPool.PutAll(Blocks(ds)),
       ptrPool := s.ptrPool.PutAll(Ptrs(ds)))
  }

  /** The parent p once the running process has exited and p has been told. */
  function Notified(s: State, p: Pid): Pcb {
    var pp := At(s, p);
    pp.(status := Running, children := Without(pp.children, [Cur(s)]), ret := Cur(s),
        cell := if pp.call.Some? && pp.call.value.Wait? && pp.call.value.hasCell then Me(s).exitValue else pp.cell)
  }

  /** The end of an exit whose parent p is waiting for it: p gets the exit value and runs, and the process is gone. */
  function Deliver(s: State, p: Pid): State {
    var r := Cur(s);
    var s1 := Release(s, Me(s).descriptors);
    var s2 := Put(s1, p, Notified(s, p));
    s2.(procs := s2.procs - {r}, waiting := Without(s.waiting, [p]), running := Some(p), pcbFree := s.pcbFree + 1)
  }

  function ParentOf(s: State, p: Pid): Pid {
    if At(s, p).parent.Some? then At(s, p).parent.value else INIT
  }

  /** The exit value is recorded and the children are given away. */
  function Depart(s: State, value: int): State {
    Reparent(Put(s, Cur(s), Me(s).(exitValue := value)))
  }

  /** internal_exit */
  function DoExit(s: State, value: int): State {
    var p := ParentOf(s, Cur(s));
    if AwaitsExitOf(s, p, Cur(s)) then Deliver(Depart(s, value), p)
    else Dispatch(Bury(Depart(s, value)), true)
  }

  // ----- message queues

  /** The next descriptor, in the first free block of either pool. */
  function NewHandle(s: State, id: int): Descriptor
    requires s.descPool.free != []
  {
    Descriptor(s.descPool.free[0], Me(s).lastFd, id, if s.ptrPool.free == [] then 0 else s.ptrPool.free[0])
  }

  /** The process's side of a new descriptor. */
  function Handled(s: State, id: int): State
    requires s.descPool.free != []
  {
    var me, d := Me(s), NewHandle(s, id);
    Put(s, Cur(s), me.(descriptors := me.descriptors + [d], lastFd := d.fd + 1, ret := d.fd))
      .(descPool := s.descPool.Take(), ptrPool := s.ptrPool.Take())
  }

  /** The part of internal_openMessageQueue after the checks: a descriptor on both sides. A queue that mq_list refused is on
      no list, and its entries are out of everybody's reach. */
  function Attach(s: State, id: int): State {
    if s.descPool.free == [] then Return(s, DSOS_ERESOURCENOFD)
    else if id !in s.queues then Handled(s, id)
    else
      var d := NewHandle(s, id);
      PutQueue(Handled(s, id), id, QueueAt(s, id).(entries := QueueAt(s, id).entries + [DescriptorPtr(d.ptr, d.block)]))
  }

  /** The block MessageQueue_alloc takes next. */
  function NextBlock(t: QueueTable): int {
    if t.pool.free == [] then 0 else t.pool.free[0]
  }

  /** The table with block b, taken from the pool, at the end of mq_list. */
  function Grown(t: QueueTable, b: int): QueueTable {
    QueueTable(t.pool.Take(), t.list + [b], Links.Tie(t.links, Links.First(t.list), Links.Last(t.list), b))
  }

  /** MessageQueue_alloc and List_insert at the end of mq_list, which refuses a block that carries a link. */
  function Create(s: State, id: int): State {
    var t, b := s.mqs, NextBlock(s.mqs);
    if Links.Carries(t.links, b) then s.(mqs := t.(pool := t.pool.Take()))
    else PutQueue(s, id, NEW_QUEUE.(block := b)).(mqs := Grown(t, b))
  }

  /** List_detach from mq_list and MessageQueue_free. */
  function Vanish(s: State, id: int): State {
    var t, b := s.mqs, QueueAt(s, id).block;
    s.(queues := s.queues - {id}, mqs := QueueTable(t.pool.Put(b), Without(t.list, [b]), Links.Untie(t.links, b)))
  }

  /** internal_openMessageQueue */
  function DoOpen(s: State, id: int, mode: int): State {
    if mode == DSOS_CREATE then
      if id in s.queues then Return(s, DSOS_ERESOURCECREATE) else Attach(Create(s, id), id)
    else if id !in s.queues then Return(s, DSOS_ERESOURCEOPEN)
    else if mode == DSOS_EXCL && s.queues[id].entries != [] then Return(s, DSOS_ERESOURCENOEXCL)
    else Attach(s, id)
  }

  /** The index of the descriptor with this fd, or the length of ds. */
  function FdIndex(ds: seq<Descriptor>, fd: int): (k: nat)
    ensures k <= |ds|
    ensures k < |ds| ==> ds[k].fd == fd
    ensures forall i :: 0 <= i < k ==> ds[i].fd != fd
  {
    if ds == [] || ds[0].fd == fd then 0 else 1 + FdIndex(ds[1..], fd)
  }

  /** internal_closeMessageQueue */
  function DoClose(s: State, fd: int): State {
    var me := Me(s);
    var k := FdIndex(me.descriptors, fd);
    if k == |me.descriptors| then Return(s, DSOS_ERESOURCECLOSE)
    else
      Release(Put(s, Cur(s), me.(descriptors := me.descriptors[..k] + me.descriptors[k + 1..], ret := 0)), [me.descriptors[k]])
  }

  /** internal_destroyMessageQueue */
  function DoDestroy(s: State, id: int): State {
    if id !in s.queues then Return(s, DSOS_ERESOURCECLOSE)
    else if s.queues[id].entries != [] then Return(s, DSOS_ERESOURCEINUSE)
    else Return(Vanish(s, id), 0)
  }

  function JoinReaders(s: State, id: int): State {
    PutQueue(s, id, QueueAt(s, id).(readers := QueueAt(s, id).readers + [Cur(s)])).(pcbPtrFree := s.pcbPtrFree - 1)
  }

  function JoinWriters(s: State, id: int): State {
    PutQueue(s, id, QueueAt(s, id).(writers := QueueAt(s, id).writers + [Cur(s)])).(pcbPtrFree := s.pcbPtrFree - 1)
  }

  /** A message is appended and everybody blocked in a read of the queue is woken. */
  function Append(s: State, id: int, data: Message): State {
    var q := QueueAt(s, id);
    PutQueue(WakeBlocked(s, q.readers), id, q.(messages := q.messages + [data], readers := [], numWritten := q.numWritten + 1))
      .(msgFree := s.msgFree - 1)
  }

  /** The first message is taken off and everybody blocked in a write to the queue is woken. */
  function Remove(s: State, id: int): State
    requires QueueAt(s, id).messages != []
  {
    var q := QueueAt(s, id);
    PutQueue(WakeBlocked(s, q.writers), id, q.(messages := q.messages[1..], writers := [], numWritten := q.numWritten - 1))
      .(pcbPtrFree := s.pcbPtrFree + |q.writers|)
  }

  /** internal_MessageQueue_write */
  function DoWrite(s: State, id: int, data: Message): State {
    var q := QueueAt(s, id);
    if |data| > MAX_LEN_MESSAGE then Return(s, ETOOLONG)
    else if id !in s.queues then Return(s, DSOS_ERESOURCENOFD)
    else if q.numWritten == MAX_NUM_MESSAGES then
      Dispatch(Suspend(JoinWriters(s, id)), true)
    else Return(Append(s, id, data), |data|)
  }

  /** internal_MessageQueue_read */
  function DoRead(s: State, id: int, room: int): State {
    var q := QueueAt(s, id);
    if q.messages == [] then
      Dispatch(Suspend(JoinReaders(s, id)), true)
    else if |q.messages[0]| > room then Return(s, ESHORTBUFFER)
    else Return(Remove(s, id), |q.messages[0]|)
  }

  /** What internal_MessageQueue_read copies to its caller. */
  function Copied(s: State, id: int, room: int): Option<Message> {
    var q := QueueAt(s, id);
    if q.messages != [] && |q.messages[0]| <= room then Some(q.messages[0]) else None
  }

  // ----- steps and runs

  /** Syscalls and timer interrupts never interleave: interrupts are masked during a trap. */
  datatype Event = Interrupt | Trap(call: Call)

  function Perform(s: State, c: Call): State {
    match c
    case Preempt => Schedule(s)
    case Fork => DoFork(s)
    case Sleep(cycles) => DoSleep(s, cycles)
    case Wait(pid, hasCell) => DoWait(s, pid, hasCell)
    case Exit(value) => DoExit(s, value)
    case Open(id, mode) => DoOpen(s, id, mode)
    case Close(fd) => DoClose(s, fd)
    case Destroy(id) => DoDestroy(s, id)
    case Write(id, data) => DoWrite(s, id, data)
    case Read(id, room) => DoRead(s, id, room)
  }

  function Step(s: State, e: Event): State {
    match e
    case Interrupt => Tick(s)
    case Trap(c) => Perform(Enter(s, c), c)
  }

  /** What the code takes for granted of the pools that it never checks or that leak, of the queue named by a read, and of
      the exiting process's parent link. */
  predicate Provided(s: State, c: Call) {
    match c
    case Fork => s.pcbFree > 0 && s.pcbPtrFree > 0
    case Exit(_) => Me(s).parent.Some? && Me(s).parent.value in s.procs
    case Open(id, mode) => mode == DSOS_CREATE && id !in s.queues ==> s.mqs.pool.free != []
    case Write(id, data) =>
      |data| <= MAX_LEN_MESSAGE && id in s.queues ==>
        if s.queues[id].numWritten == MAX_NUM_MESSAGES then s.pcbPtrFree > 0 else s.msgFree > 0
    case Read(id, _) => id in s.queues && (s.queues[id].messages == [] ==> s.pcbPtrFree > 0)
    case _ => true
  }

  /** The calls that take the head of the ready list without looking whether there is one. */
  predicate TakesNext(s: State, c: Call) {
    match c
    case Wait(pid, _) => Me(s).children != [] && At(s, Scan(s, Me(s).children, pid)).status != Zombie
    case Exit(_) => Me(s).parent.Some? && !AwaitsExitOf(s, Me(s).parent.value, Cur(s))
    case Write(id, data) => |data| <= MAX_LEN_MESSAGE && id in s.queues && s.queues[id].numWritten == MAX_NUM_MESSAGES
    case Read(id, _) => QueueAt(s, id).messages == []
    case _ => false
  }

  predicate Defined(s: State, e: Event) {
    && s.running.Some?
    && (e.Trap? ==> Provided(s, e.call) && (TakesNext(s, e.call) ==> s.ready != []))
  }

  function Run(s: State, es: seq<Event>): State
    decreases |es|
  {
    if es == [] then s else Run(Step(s, es[0]), es[1..])
  }

  /** Every event of the run meets what the code takes for granted. */
  predicate ValidRun(s: State, es: seq<Event>)
    decreases |es|
  {
    es == [] || (Defined(s, es[0]) && ValidRun(Step(s, es[0]), es[1..]))
  }
}
