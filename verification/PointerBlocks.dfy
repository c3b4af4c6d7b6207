/** The pool of pointer blocks, from which children lists and the lists of blocked processes take their entries: where its
    blocks are, and which are lost. */
module PointerBlocks {
  import opened Lists
  import opened Machine
  import opened Invariants
  import Runs
  import Processes
  import Frames
  import Exits

  /** Everybody with an entry on a list of children. There is one entry for each: nobody is on two lists, or on one twice. */
  ghost function Kids(s: State): set<Pid> {
    set p, c | p in s.procs && c in s.procs[p].children :: c
  }

  /** Everybody with an entry among the readers or the writers of a queue, one for each. */
  ghost function Blocked(s: State): set<Pid> {
    set id, p | id in s.queues && p in s.queues[id].readers + s.queues[id].writers :: p
  }

  /** The blocks that are free or hold an entry. */
  ghost function Accounted(s: State): int {
    s.pcbPtrFree + |Kids(s)| + |Blocked(s)|
  }

  /** The pointer blocks that are lost in a step: those of the readers a write wakes, that of a child whose exit is delivered,
      and those of whoever is blocked on a queue that is destroyed. Writers that a read wakes and children that a wait reaps give
      theirs back. */
  function Lost(s: State, e: Event): nat {
    if e.Interrupt? then 0
    else
      match e.call
      case Write(id, data) =>
        if |data| <= MAX_LEN_MESSAGE && id in s.queues && s.queues[id].numWritten != MAX_NUM_MESSAGES then |s.queues[id].readers| else 0
      case Exit(_) => if AwaitsExitOf(s, ParentOf(s, Cur(s)), Cur(s)) then 1 else 0
      case Destroy(id) =>
        if id in s.queues && s.queues[id].entries == [] then |s.queues[id].readers| + |s.queues[id].writers| else 0
      case _ => 0
  }

  function LostAlong(s: State, es: seq<Event>): nat
    decreases |es|
  {
    if es == [] then 0 else Lost(s, es[0]) + LostAlong(Step(s, es[0]), es[1..])
  }

  // ----- the children

  ghost predicate OnSomeList(s: State, c: Pid) {
    exists p: Pid :: Kid(s, p, c)
  }

  lemma KidsAre(s: State)
    ensures forall c: Pid :: c in Kids(s) <==> OnSomeList(s, c)
  {
    forall c: Pid
      ensures c in Kids(s) <==> OnSomeList(s, c)
    {
      if OnSomeList(s, c) {
        var p: Pid :| Kid(s, p, c);
        assert p in s.procs && c in s.procs[p].children;
      }
      if c in Kids(s) {
        var p :| p in s.procs && c in s.procs[p].children;
        assert Kid(s, p, c);
      }
    }
  }

  lemma SameKids(s: State, t: State)
    requires forall p: Pid, c: Pid :: Kid(t, p, c) <==> Kid(s, p, c)
    ensures Kids(t) == Kids(s)
  {
    KidsAre(s);
    KidsAre(t);
  }

  lemma UnrelatedKids(s: State, t: State)
    requires Exits.Unrelated(s, t)
    ensures Kids(t) == Kids(s)
  {
    SameKids(s, t);
  }

  lemma ForkKids(s: State)
    requires Places(s) && Family(s) && s.running.Some?
    ensures |Kids(DoFork(s))| == |Kids(s)| + 1
  {
    var t := DoFork(s);
    Exits.RunnerActive(s);
    KidsAre(s);
    KidsAre(t);
    assert s.lastPid !in s.procs;
    assert forall p: Pid :: !Kid(s, p, s.lastPid);
    assert !OnSomeList(s, s.lastPid);
    ForkedKids(s);
    forall c: Pid
      ensures OnSomeList(t, c) <==> OnSomeList(s, c) || c == s.lastPid
    {
      if OnSomeList(s, c) {
        var p: Pid :| Kid(s, p, c);
        assert Kid(t, p, c);
      }
      assert Kid(t, Cur(s), s.lastPid);
    }
    assert Kids(t) == Kids(s) + {s.lastPid};
  }

  lemma ForkedKids(s: State)
    requires Cur(s) in s.procs && s.lastPid !in s.procs
    ensures forall p: Pid, c: Pid :: Kid(DoFork(s), p, c) <==> Kid(s, p, c) || (p == Cur(s) && c == s.lastPid)
  { }

  lemma ReapKids(s: State, c: Pid, hasCell: bool)
    requires Family(s) && !Dead(s, Cur(s)) && Kid(s, Cur(s), c) && c != Cur(s) && Dead(s, c)
    ensures |Kids(Reap(s, c, hasCell))| == |Kids(s)| - 1
  {
    var t := Reap(s, c, hasCell);
    KidsAre(s);
    KidsAre(t);
    assert t.procs.Keys == s.procs.Keys - {c};
    forall p: Pid, k: Pid
      ensures Kid(t, p, k) <==> Kid(s, p, k) && k != c
    { }
    assert Kids(t) == Kids(s) - {c};
  }

  lemma DepartedKids(s: State, t: State)
    requires Exits.Departed(s, t) && Cur(s) != INIT && INIT in s.procs && Family(s)
    ensures Cur(s) in t.procs ==> Kids(t) == Kids(s)
    ensures Cur(s) !in t.procs ==> Kids(t) == Kids(s) - {Cur(s)}
  {
    KidsAre(s);
    KidsAre(t);
    forall c: Pid
      ensures c != Cur(s) || Cur(s) in t.procs ==> (OnSomeList(t, c) <==> OnSomeList(s, c))
    {
      if OnSomeList(s, c) && (c != Cur(s) || Cur(s) in t.procs) {
        var p: Pid :| Kid(s, p, c);
        assert Kid(t, if p == Cur(s) then INIT else p, c);
      }
    }
    if Cur(s) !in t.procs {
      assert forall p: Pid :: !Kid(t, p, Cur(s));
    }
  }

  // ----- the processes blocked on queues

  lemma SameBlocked(s: State, t: State)
    requires forall id :: id in s.queues ==>
               id in t.queues && t.queues[id].readers == s.queues[id].readers && t.queues[id].writers == s.queues[id].writers
    requires forall id :: id in t.queues && id !in s.queues ==> t.queues[id].readers == [] && t.queues[id].writers == []
    ensures Blocked(t) == Blocked(s)
  {
    forall p
      ensures p in Blocked(t) <==> p in Blocked(s)
    {
      if p in Blocked(s) {
        var id :| id in s.queues && p in s.queues[id].readers + s.queues[id].writers;
        assert id in t.queues && p in t.queues[id].readers + t.queues[id].writers;
      }
      if p in Blocked(t) {
        var id :| id in t.queues && p in t.queues[id].readers + t.queues[id].writers;
        assert id in s.queues && p in s.queues[id].readers + s.queues[id].writers;
      }
    }
  }

  /** Everybody blocked on a queue is on the waiting list, in a call on that queue. */
  lemma BlockedWait(s: State, id: int, p: Pid)
    requires QueuesOk(s) && id in s.queues && p in s.queues[id].readers + s.queues[id].writers
    ensures p in s.waiting && (ReadsFrom(s, p, id) || WritesTo(s, p, id))
  {
    assert QueueOk(s, id, s.queues[id]);
  }

  lemma BlockedAreWaiting(s: State)
    requires QueuesOk(s)
    ensures forall p :: p in Blocked(s) ==> p in s.waiting
  {
    forall p | p in Blocked(s)
      ensures p in s.waiting
    {
      var id :| id in s.queues && p in s.queues[id].readers + s.queues[id].writers;
      BlockedWait(s, id, p);
    }
  }

  /** One process more is blocked. */
  lemma JoinBlocked(s: State, t: State, id: int)
    requires QueuesOk(s) && id in s.queues && Cur(s) !in s.waiting
    requires t.queues.Keys == s.queues.Keys && forall i :: i in s.queues && i != id ==> t.queues[i] == s.queues[i]
    requires forall p :: p in t.queues[id].readers + t.queues[id].writers <==> p in s.queues[id].readers + s.queues[id].writers || p == Cur(s)
    ensures |Blocked(t)| == |Blocked(s)| + 1
  {
    var r := Cur(s);
    BlockedAreWaiting(s);
    forall p
      ensures p in Blocked(t) <==> p in Blocked(s) || p == r
    {
      if p in Blocked(s) {
        var i :| i in s.queues && p in s.queues[i].readers + s.queues[i].writers;
        assert i in t.queues && p in t.queues[i].readers + t.queues[i].writers;
      }
      assert id in t.queues && r in t.queues[id].readers + t.queues[id].writers;
      if p in Blocked(t) && p != r {
        var i :| i in t.queues && p in t.queues[i].readers + t.queues[i].writers;
        assert i in s.queues && p in s.queues[i].readers + s.queues[i].writers;
      }
    }
    assert Blocked(t) == Blocked(s) + {r};
  }

  /** From s to t everybody of ps leaves queue id, and nobody else leaves a queue or comes to one. */
  ghost predicate Leave(s: State, t: State, id: int, ps: seq<Pid>) {
    && id in s.queues
    && (forall p :: p in ps ==> p in s.queues[id].readers + s.queues[id].writers)
    && (forall i :: i in s.queues && i != id ==>
          i in t.queues && t.queues[i].readers == s.queues[i].readers && t.queues[i].writers == s.queues[i].writers)
    && (forall i :: i in t.queues ==> i in s.queues)
    && (forall p :: id in t.queues && p in t.queues[id].readers + t.queues[id].writers <==>
          p in s.queues[id].readers + s.queues[id].writers && p !in ps)
  }

  lemma LeaveBlocked(s: State, t: State, id: int, ps: seq<Pid>)
    requires QueuesOk(s) && NoDup(ps) && Leave(s, t, id, ps)
    ensures |Blocked(t)| == |Blocked(s)| - |ps|
  {
    BlockedAfter(s, t, id, ps);
    ListedAreBlocked(s, id);
    FewerBy(Blocked(s), Blocked(t), ps);
  }

  lemma BlockedAfter(s: State, t: State, id: int, ps: seq<Pid>)
    requires QueuesOk(s) && Leave(s, t, id, ps)
    ensures forall p :: p in Blocked(t) <==> p in Blocked(s) && p !in ps
  {
    forall p
      ensures p in Blocked(t) <==> p in Blocked(s) && p !in ps
    {
      if p in Blocked(t) {
        LeftIsBlocked(s, t, id, ps, p);
      }
      if p in Blocked(s) && p !in ps {
        StaysBlocked(s, t, id, ps, p);
      }
    }
  }

  lemma FewerBy(a: set<Pid>, b: set<Pid>, ps: seq<Pid>)
    requires NoDup(ps) && (forall p :: p in ps ==> p in a) && forall p :: p in b <==> p in a && p !in ps
    ensures |b| == |a| - |ps|
  {
    var gone := set p | p in ps;
    NoDupCardinality(ps);
    assert gone <= a && b == a - gone;
  }

  lemma ListedAreBlocked(s: State, id: int)
    requires id in s.queues
    ensures forall p :: p in s.queues[id].readers + s.queues[id].writers ==> p in Blocked(s)
  { }

  lemma StaysBlocked(s: State, t: State, id: int, ps: seq<Pid>, p: Pid)
    requires Leave(s, t, id, ps) && p in Blocked(s) && p !in ps
    ensures p in Blocked(t)
  {
    var i :| i in s.queues && p in s.queues[i].readers + s.queues[i].writers;
    assert i in t.queues && p in t.queues[i].readers + t.queues[i].writers;
  }

  lemma LeftIsBlocked(s: State, t: State, id: int, ps: seq<Pid>, p: Pid)
    requires QueuesOk(s) && Leave(s, t, id, ps) && p in Blocked(t)
    ensures p in Blocked(s) && p !in ps
  {
    var i :| i in t.queues && p in t.queues[i].readers + t.queues[i].writers;
    assert i in s.queues && p in s.queues[i].readers + s.queues[i].writers;
    BlockedWait(s, i, p);
    if p in ps {
      BlockedWait(s, id, p);
    }
  }

  // ----- the queue calls

  /** What a write leaves of the queues and of the pool. */
  lemma WriteQueues(s: State, id: int, data: Message)
    ensures var t, q := DoWrite(s, id, data), QueueAt(s, id);
      if |data| > MAX_LEN_MESSAGE || id !in s.queues then t.queues == s.queues && t.pcbPtrFree == s.pcbPtrFree
      else if q.numWritten == MAX_NUM_MESSAGES then
        t.queues == s.queues[id := q.(writers := q.writers + [Cur(s)])] && t.pcbPtrFree == s.pcbPtrFree - 1
      else
        t.queues == s.queues[id := q.(messages := q.messages + [data], readers := [], numWritten := q.numWritten + 1)]
        && t.pcbPtrFree == s.pcbPtrFree
  { }

  lemma ReadQueues(s: State, id: int, room: int)
    ensures var t, q := DoRead(s, id, room), QueueAt(s, id);
      if q.messages == [] then t.queues == s.queues[id := q.(readers := q.readers + [Cur(s)])] && t.pcbPtrFree == s.pcbPtrFree - 1
      else if |q.messages[0]| > room then t.queues == s.queues && t.pcbPtrFree == s.pcbPtrFree
      else
        t.queues == s.queues[id := q.(messages := q.messages[1..], writers := [], numWritten := q.numWritten - 1)]
        && t.pcbPtrFree == s.pcbPtrFree + |q.writers|
  { }

  lemma ReadersLeave(s: State, t: State, id: int, ms: seq<Message>)
    requires id in s.queues && QueueOk(s, id, s.queues[id]) && |s.queues[id].messages| < MAX_NUM_MESSAGES
    requires var q := s.queues[id];
      t.queues == s.queues[id := q.(messages := ms, readers := [], numWritten := q.numWritten + 1)]
    ensures Leave(s, t, id, s.queues[id].readers)
  {
    assert s.queues[id].writers == [];
  }

  lemma AcceptedBlocks(s: State, id: int, data: Message)
    requires QueuesOk(s) && |data| <= MAX_LEN_MESSAGE && id in s.queues && s.queues[id].numWritten != MAX_NUM_MESSAGES
    ensures |Blocked(DoWrite(s, id, data))| == |Blocked(s)| - |s.queues[id].readers|
  {
    var t, q := DoWrite(s, id, data), s.queues[id];
    WriteQueues(s, id, data);
    assert QueueOk(s, id, q);
    ReadersLeave(s, t, id, q.messages + [data]);
    LeaveBlocked(s, t, id, q.readers);
  }

  lemma FullBlocks(s: State, id: int, data: Message)
    requires QueuesOk(s) && |data| <= MAX_LEN_MESSAGE && id in s.queues && s.queues[id].numWritten == MAX_NUM_MESSAGES
    requires Cur(s) !in s.waiting
    ensures |Blocked(DoWrite(s, id, data))| == |Blocked(s)| + 1
  {
    WriteQueues(s, id, data);
    JoinBlocked(s, DoWrite(s, id, data), id);
  }

  lemma WriteBlocks(s: State, id: int, data: Message)
    requires QueuesOk(s) && Cur(s) !in s.waiting
    ensures var t := DoWrite(s, id, data);
      t.pcbPtrFree + |Blocked(t)| + Lost(s, Trap(Write(id, data))) == s.pcbPtrFree + |Blocked(s)|
  {
    WriteQueues(s, id, data);
    if |data| > MAX_LEN_MESSAGE || id !in s.queues {
      SameBlocked(s, DoWrite(s, id, data));
    } else if s.queues[id].numWritten == MAX_NUM_MESSAGES {
      FullBlocks(s, id, data);
    } else {
      AcceptedBlocks(s, id, data);
    }
  }

  lemma ReadBlocks(s: State, id: int, room: int)
    requires QueuesOk(s) && Cur(s) !in s.waiting && id in s.queues
    ensures var t := DoRead(s, id, room); t.pcbPtrFree + |Blocked(t)| == s.pcbPtrFree + |Blocked(s)|
  {
    var t, q := DoRead(s, id, room), s.queues[id];
    ReadQueues(s, id, room);
    assert QueueOk(s, id, q);
    if q.messages == [] {
      JoinBlocked(s, t, id);
    } else if |q.messages[0]| > room {
      SameBlocked(s, t);
    } else {
      LeaveBlocked(s, t, id, q.writers);
    }
  }

  lemma DestroyBlocks(s: State, id: int)
    requires QueuesOk(s)
    ensures var t := DoDestroy(s, id);
      t.pcbPtrFree + |Blocked(t)| + Lost(s, Trap(Destroy(id))) == s.pcbPtrFree + |Blocked(s)|
  {
    var t := DoDestroy(s, id);
    if id !in s.queues || s.queues[id].entries != [] {
      SameBlocked(s, t);
    } else {
      var q := s.queues[id];
      DestroyQueues(s, id);
      assert QueueOk(s, id, q);
      assert q.readers == [] || q.writers == [];
      assert id !in t.queues;
      LeaveBlocked(s, t, id, q.readers + q.writers);
    }
  }

  lemma DestroyQueues(s: State, id: int)
    requires id in s.queues && s.queues[id].entries == []
    ensures DoDestroy(s, id).queues == s.queues - {id} && DoDestroy(s, id).pcbPtrFree == s.pcbPtrFree
  { }

  lemma OpenBlocks(s: State, id: int, mode: int)
    ensures var t := DoOpen(s, id, mode); t.pcbPtrFree == s.pcbPtrFree && Blocked(t) == Blocked(s)
  {
    if mode == DSOS_CREATE && id !in s.queues {
      CreateBlocks(s, id);
      AttachBlocks(Create(s, id), id);
    } else {
      AttachBlocks(s, id);
      SameBlocked(s, Return(s, Me(DoOpen(s, id, mode)).ret));
    }
  }

  lemma CreateBlocks(s: State, id: int)
    requires id !in s.queues
    ensures Create(s, id).pcbPtrFree == s.pcbPtrFree && Blocked(Create(s, id)) == Blocked(s)
  {
    SameBlocked(s, Create(s, id));
  }

  lemma AttachBlocks(s: State, id: int)
    ensures Attach(s, id).pcbPtrFree == s.pcbPtrFree && Blocked(Attach(s, id)) == Blocked(s)
  {
    SameBlocked(s, Attach(s, id));
  }

  lemma OtherBlocks(s: State, c: Call)
    requires c.Preempt? || c.Sleep? || c.Close?
    ensures var t := Perform(s, c); t.pcbPtrFree == s.pcbPtrFree && Blocked(t) == Blocked(s)
  {
    SameBlocked(s, Perform(s, c));
  }

  lemma QueueSide(s: State, c: Call)
    requires Inv(s) && s.running.Some? && Provided(s, c) && !c.Fork? && !c.Wait? && !c.Exit?
    ensures var t := Perform(s, c); t.pcbPtrFree + |Blocked(t)| + Lost(s, Trap(c)) == s.pcbPtrFree + |Blocked(s)|
  {
    Frames.HeadAlive(s);
    match c
    case Write(id, data) => WriteBlocks(s, id, data);
    case Read(id, room) => ReadBlocks(s, id, room);
    case Destroy(id) => DestroyBlocks(s, id);
    case Open(id, mode) => OpenBlocks(s, id, mode);
    case _ => OtherBlocks(s, c);
  }

  // ----- fork, wait and exit

  lemma WaitAccounts(s: State, pid: int, hasCell: bool)
    requires Places(s) && Family(s) && s.running.Some?
    ensures Accounted(DoWait(s, pid, hasCell)) == Accounted(s)
  {
    Exits.RunnerActive(s);
    WaitQueues(s, pid, hasCell);
    SameBlocked(s, DoWait(s, pid, hasCell));
    if Me(s).children == [] {
      SameKids(s, Return(s, DSOS_EWAIT));
    } else {
      var c := Scan(s, Me(s).children, pid);
      Processes.ScanFinds(s, Me(s).children, pid);
      assert Kid(s, Cur(s), c);
      if At(s, c).status == Zombie {
        ReapKids(s, c, hasCell);
      } else {
        SameKids(s, Dispatch(Suspend(s), false));
      }
    }
  }

  lemma WaitQueues(s: State, pid: int, hasCell: bool)
    ensures var t := DoWait(s, pid, hasCell);
      && t.queues == s.queues
      && t.pcbPtrFree == s.pcbPtrFree + if Me(s).children != [] && At(s, Scan(s, Me(s).children, pid)).status == Zombie then 1 else 0
  { }

  lemma ExitKids(s: State, value: int)
    requires Inv(s) && s.running.Some? && Me(s).parent.Some? && Me(s).parent.value in s.procs
    ensures |Kids(DoExit(s, value))| + Lost(s, Trap(Exit(value))) == |Kids(s)|
  {
    Exits.RunnerActive(s);
    Processes.ParentIsOther(s);
    if AwaitsExitOf(s, ParentOf(s, Cur(s)), Cur(s)) {
      DeliveredKids(s, value);
    } else {
      BuriedKids(s, value);
    }
  }

  lemma DeliveredKids(s: State, value: int)
    requires Inv(s) && s.running.Some? && Cur(s) != INIT && Me(s).parent.Some? && Me(s).parent.value in s.procs
    requires AwaitsExitOf(s, ParentOf(s, Cur(s)), Cur(s))
    ensures |Kids(DoExit(s, value))| + 1 == |Kids(s)|
  {
    Exits.DeliverFacts(s, value, ParentOf(s, Cur(s)));
    OneKidFewer(s, DoExit(s, value), ParentOf(s, Cur(s)));
  }

  lemma BuriedKids(s: State, value: int)
    requires Inv(s) && s.running.Some? && Cur(s) != INIT && Cur(s) in s.procs
    requires !AwaitsExitOf(s, ParentOf(s, Cur(s)), Cur(s))
    ensures |Kids(DoExit(s, value))| == |Kids(s)|
  {
    Exits.BuryFacts(s, value);
    DepartedKids(s, DoExit(s, value));
  }

  lemma OneKidFewer(s: State, t: State, p: Pid)
    requires Exits.Departed(s, t) && Cur(s) != INIT && INIT in s.procs && Family(s) && Cur(s) !in t.procs && Kid(s, p, Cur(s))
    ensures |Kids(t)| + 1 == |Kids(s)|
  {
    KidsAre(s);
    assert OnSomeList(s, Cur(s));
    DepartedKids(s, t);
  }

  lemma ExitAccounts(s: State, value: int)
    requires Inv(s) && s.running.Some? && Me(s).parent.Some? && Me(s).parent.value in s.procs
    ensures Accounted(DoExit(s, value)) + Lost(s, Trap(Exit(value))) == Accounted(s)
  {
    ExitBlocks(s, value);
    ExitKids(s, value);
  }

  lemma ExitBlocks(s: State, value: int)
    ensures var t := DoExit(s, value); t.pcbPtrFree == s.pcbPtrFree && Blocked(t) == Blocked(s)
  {
    SameBlocked(s, DoExit(s, value));
  }

  lemma CallAccounts(s: State, c: Call)
    requires Inv(s) && s.running.Some? && Provided(s, c) && At(s, Cur(s)).call == Some(c)
    ensures Accounted(Perform(s, c)) + Lost(s, Trap(c)) == Accounted(s)
  {
    if c.Fork? {
      ForkKids(s);
      SameBlocked(s, DoFork(s));
    } else if c.Wait? {
      WaitAccounts(s, c.pid, c.hasCell);
    } else if c.Exit? {
      ExitAccounts(s, c.value);
    } else {
      Exits.CallUnrelated(s, c);
      UnrelatedKids(s, Perform(s, c));
      QueueSide(s, c);
    }
  }

  // ----- steps and runs

  lemma EnterAccounts(s: State, c: Call)
    requires Places(s) && s.running.Some?
    ensures Accounted(Enter(s, c)) == Accounted(s) && Lost(Enter(s, c), Trap(c)) == Lost(s, Trap(c))
  {
    Exits.RunnerActive(s);
    SameKids(s, Enter(s, c));
    SameBlocked(s, Enter(s, c));
  }

  /** One step: blocks that are free, blocks that hold an entry and blocks that are lost make up what there was. */
  lemma BlocksStep(s: State, e: Event)
    requires Inv(s) && Defined(s, e)
    ensures Accounted(Step(s, e)) + Lost(s, e) == Accounted(s)
    ensures s.pcbPtrFree >= 0 ==> Step(s, e).pcbPtrFree >= 0
  {
    match e
    case Interrupt =>
      Exits.StepUnrelated(s, e);
      UnrelatedKids(s, Step(s, e));
      TickBlocks(s);
    case Trap(c) =>
      Frames.EnterKeeps(s, c);
      EnterAccounts(s, c);
      CallAccounts(Enter(s, c), c);
      if s.pcbPtrFree >= 0 {
        LastBlock(s, c);
      }
  }

  lemma TickBlocks(s: State)
    ensures Tick(s).pcbPtrFree == s.pcbPtrFree && Blocked(Tick(s)) == Blocked(s)
  {
    SameBlocked(s, Tick(s));
  }

  lemma LastBlock(s: State, c: Call)
    requires Defined(s, Trap(c)) && s.pcbPtrFree >= 0
    ensures Step(s, Trap(c)).pcbPtrFree >= 0
  { }

  /** Over any run the pointer blocks that no longer are free or in use are exactly those lost by woken readers, delivered exits
      and destroyed waiters: none comes back. */
  lemma {:induction false} PointerBlocksLeak(s: State, es: seq<Event>)
    requires Inv(s) && ValidRun(s, es)
    ensures Accounted(Run(s, es)) + LostAlong(s, es) == Accounted(s)
    ensures s.pcbPtrFree >= 0 ==> Run(s, es).pcbPtrFree >= 0
    decreases |es|
  {
    if es != [] {
      BlocksStep(s, es[0]);
      Runs.StepKeeps(s, es[0]);
      PointerBlocksLeak(Step(s, es[0]), es[1..]);
    }
  }

  /** From the start: the system loses at most as many as the pool has, and the pool never gets more back than it gave. */
  lemma LossIsBounded(es: seq<Event>)
    requires ValidRun(Boot(), es)
    ensures var t := Run(Boot(), es);
      t.pcbPtrFree + |Kids(t)| + |Blocked(t)| + LostAlong(Boot(), es) == 2048 && 0 <= t.pcbPtrFree <= 2048
  {
    BootInv();
    PointerBlocksLeak(Boot(), es);
    assert Kids(Boot()) == {} && Blocked(Boot()) == {};
  }
}
