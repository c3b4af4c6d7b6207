/** The kernel as the code has it: global variables that every syscall updates in place. Each method is proved to do to the
    state what the machine's step says. */
module KernelCode {
  import opened Lists
  import PoolAllocator
  import Links
  import opened Machine
  import opened Directory
  import opened Invariants
  import Frames
  import Scheduling
  import Processes
  import QueueCalls
  import Runs

  /** The three lists that thread control blocks through one pair of link fields. */
  datatype ListName = ReadyList | WaitingList | ZombieList

  class Kernel {
    var time: int
    var lastPid: Pid
    var running: Option<Pid>
    var ready: seq<Pid>
    var waiting: seq<Pid>
    var zombie: seq<Pid>
    var pcbLinks: Links.Links<Pid> // the link fields of the control blocks
    var timers: seq<Timer>
    var procs: map<Pid, Pcb>
    var mqList: seq<MessageQueue>
    var mqs: QueueTable
    var timerPool: PoolAllocator.Pool
    var descPool: PoolAllocator.Pool
    var ptrPool: PoolAllocator.Pool
    var pcbFree: int
    var pcbPtrFree: int
    var msgFree: int

    /** The state of the machine these variables stand for. */
    ghost function View(): State
      reads this
    {
      State(time, lastPid, running, ready, waiting, zombie, timers, procs, Catalog(mqList),
            timerPool, descPool, ptrPool, pcbFree, pcbPtrFree, mqs, msgFree)
    }

    /** The links of the control blocks are those of the three lists, and a block on none of them carries none. */
    ghost predicate Threaded()
      reads this`ready, this`waiting, this`zombie, this`pcbLinks
    {
      ThreeLists(pcbLinks, ready, waiting, zombie)
    }

    ghost predicate OnNone(p: Pid)
      reads this`ready, this`waiting, this`zombie
    {
      p !in ready && p !in waiting && p !in zombie
    }

    /** mqList holds the queues whose blocks are on the list, each id once. */
    ghost predicate Listed()
      reads this`mqList, this`mqs
    {
      UniqueIds(mqList) && mqs.list == BlocksOf(mqList)
    }

    /** What holds between any two list operations. */
    ghost predicate Shape()
      reads this
    {
      Listed() && Threaded()
    }

    ghost predicate Valid()
      reads this
    {
      Shape() && Inv(View())
    }

    /** disastrOS_start */
    constructor ()
      ensures Valid() && View() == Boot()
    {
      time, lastPid, running := 0, 1, Some(INIT);
      ready, waiting, zombie, timers, mqList := [], [], [], [], [];
      pcbLinks := Links.Links(map[], map[]);
      mqs := QueueTable(PoolAllocator.Full(MAX_NUM_MESSAGEQUEUES), [], Links.Links(map[], map[]));
      procs := map[INIT := NEW_PCB.(status := Running)];
      timerPool := PoolAllocator.Full(MAX_NUM_PROCESSES);
      descPool, ptrPool := PoolAllocator.Full(MAX_NUM_PROCESSES), PoolAllocator.Full(MAX_NUM_PROCESSES);
      pcbFree, pcbPtrFree := MAX_NUM_PROCESSES - 1, MAX_NUM_PROCESSES;
      msgFree := MESSAGE_BLOCKS;
      new;
      assert View() == Boot();
      BootInv();
    }

    // ----- lists of control blocks

    function ListOf(w: ListName): seq<Pid>
      reads this`ready, this`waiting, this`zombie
    {
      match w
      case ReadyList => ready
      case WaitingList => waiting
      case ZombieList => zombie
    }

    /** List_insert after prev, or in front. It refuses exactly the control blocks that are on one of the lists. A block alone on
        its list carries no link and would not be refused; nobody may hand that one in. */
    method Insert(w: ListName, prev: Option<Pid>, p: Pid) returns (done: bool)
      requires Threaded() && (prev.Some? ==> prev.value in ListOf(w))
      requires (p in ready ==> |ready| > 1) && (p in waiting ==> |waiting| > 1) && (p in zombie ==> |zombie| > 1)
      modifies this`ready, this`waiting, this`zombie, this`pcbLinks
      ensures Threaded()
      ensures done <==> old(OnNone(p))
      ensures ready == if done && w.ReadyList? then InsertedBehind(old(ready), prev, p) else old(ready)
      ensures waiting == if done && w.WaitingList? then InsertedBehind(old(waiting), prev, p) else old(waiting)
      ensures zombie == if done && w.ZombieList? then InsertedBehind(old(zombie), prev, p) else old(zombie)
    {
      RefusedIfListed(p);
      if Links.Carries(pcbLinks, p) {
        return false;
      }
      match w {
        case ReadyList =>
          TieOne(pcbLinks, ready, waiting, zombie, prev, p);
          pcbLinks := Links.Tie(pcbLinks, Links.First(ready), prev, p);
          ready := InsertedBehind(ready, prev, p);
        case WaitingList =>
          TieOne(pcbLinks, waiting, ready, zombie, prev, p);
          pcbLinks := Links.Tie(pcbLinks, Links.First(waiting), prev, p);
          waiting := InsertedBehind(waiting, prev, p);
        case ZombieList =>
          TieOne(pcbLinks, zombie, ready, waiting, prev, p);
          pcbLinks := Links.Tie(pcbLinks, Links.First(zombie), prev, p);
          zombie := InsertedBehind(zombie, prev, p);
      }
      return true;
    }

    lemma RefusedIfListed(p: Pid)
      requires Threaded()
      requires (p in ready ==> |ready| > 1) && (p in waiting ==> |waiting| > 1) && (p in zombie ==> |zombie| > 1)
      ensures Links.Carries(pcbLinks, p) <==> !OnNone(p)
    {
      if p in ready {
        Links.CarriesIffNotAlone(pcbLinks, ready, p);
      } else if p in waiting {
        Links.CarriesIffNotAlone(pcbLinks, waiting, p);
      } else if p in zombie {
        Links.CarriesIffNotAlone(pcbLinks, zombie, p);
      }
    }

    /** List_insert at the end. */
    method InsertLast(w: ListName, p: Pid)
      requires Threaded() && OnNone(p)
      modifies this`ready, this`waiting, this`zombie, this`pcbLinks
      ensures Threaded()
      ensures ready == if w.ReadyList? then old(ready) + [p] else old(ready)
      ensures waiting == if w.WaitingList? then old(waiting) + [p] else old(waiting)
      ensures zombie == if w.ZombieList? then old(zombie) + [p] else old(zombie)
    {
      LastPosition(ListOf(w), p);
      var done := Insert(w, Links.Last(ListOf(w)), p);
      assert done;
    }

    /** List_detach, which takes for granted that the block is on the list. */
    method Detach(w: ListName, p: Pid)
      requires Threaded() && p in ListOf(w)
      modifies this`ready, this`waiting, this`zombie, this`pcbLinks
      ensures Threaded() && OnNone(p)
      ensures ready == if w.ReadyList? then Without(old(ready), [p]) else old(ready)
      ensures waiting == if w.WaitingList? then Without(old(waiting), [p]) else old(waiting)
      ensures zombie == if w.ZombieList? then Without(old(zombie), [p]) else old(zombie)
    {
      match w {
        case ReadyList =>
          UntieOne(pcbLinks, ready, waiting, zombie, p);
          ready := Without(ready, [p]);
        case WaitingList =>
          UntieOne(pcbLinks, waiting, ready, zombie, p);
          waiting := Without(waiting, [p]);
        case ZombieList =>
          UntieOne(pcbLinks, zombie, ready, waiting, p);
          zombie := Without(zombie, [p]);
      }
      pcbLinks := Links.Untie(pcbLinks, p);
    }

    /** List_detach of the first process of the ready list. */
    method DetachFirst() returns (p: Pid)
      requires Threaded() && ready != []
      modifies this`ready, this`waiting, this`zombie, this`pcbLinks
      ensures Threaded() && waiting == old(waiting) && zombie == old(zombie)
      ensures p == old(ready[0]) && ready == old(ready[1..]) && OnNone(p)
    {
      p := ready[0];
      Links.WithoutAt(ready, 0);
      Detach(ReadyList, p);
    }

    // ----- internal_schedule

    method Schedule()
      requires Shape() && CanSchedule(View())
      modifies this
      ensures Shape() && View() == Machine.Schedule(old(View()))
    {
      WakeDue();
      PassOn();
    }

    /** The end of internal_schedule. */
    method PassOn()
      requires Threaded() && Steady(View())
      modifies this`ready, this`waiting, this`zombie, this`pcbLinks, this`procs, this`running
      ensures Threaded() && View() == Rotate(old(View()))
    {
      if ready != [] {
        Swap();
      }
    }

    method Swap()
      requires Threaded() && ready != [] && ready[0] in procs && running.Some? && running.value in procs && OnNone(running.value)
      modifies this`ready, this`waiting, this`zombie, this`pcbLinks, this`procs, this`running
      ensures Threaded() && waiting == old(waiting) && zombie == old(zombie)
      ensures ready == old(ready[1..] + [running.value]) && running == Some(old(ready[0]))
      ensures procs == old(procs[running.value := procs[running.value].(status := Ready)]
                             [ready[0] := procs[ready[0]].(status := Running)])
    {
      var next := DetachFirst();
      procs := procs[running.value := procs[running.value].(status := Ready)];
      InsertLast(ReadyList, running.value);
      procs := procs[next := procs[next].(status := Running)];
      running := Some(next);
    }

    /** The loop of internal_schedule: it ends because every round takes a timer off the list. */
    method WakeDue()
      requires Threaded() && CanWake(View())
      modifies this`ready, this`waiting, this`zombie, this`pcbLinks, this`timers, this`timerPool, this`procs
      ensures Threaded() && View() == WakeSleepers(old(View()))
    {
      ghost var s, k := View(), 0;
      var previous: Option<Pid> := None;
      WakeNone(s);
      while timers != [] && time >= timers[0].time
        invariant 0 <= k <= Due(s.timers, s.time) && Threaded() && View() == WakeFirst(s, k)
        invariant previous == PreviousOf(s, k)
        decreases |s.timers| - k
      {
        previous := WakeRound(s, k, previous);
        k := k + 1;
      }
      assert k == Due(s.timers, s.time);
    }

    method WakeRound(ghost s: State, ghost k: nat, previous: Option<Pid>) returns (woken: Option<Pid>)
      requires Threaded() && k <= Due(s.timers, s.time) && CanWake(s) && timers != [] && timers[0].time <= time
      requires View() == WakeFirst(s, k) && previous == PreviousOf(s, k)
      modifies this`ready, this`waiting, this`zombie, this`pcbLinks, this`timers, this`timerPool, this`procs
      ensures Threaded() && k < Due(s.timers, s.time) && View() == WakeFirst(s, k + 1) && woken == PreviousOf(s, k + 1)
    {
      assert RoundOk(s, k);
      woken := WakeOne(previous);
    }

    /** One round: the process of the first timer goes right behind the one woken before it. */
    method WakeOne(previous: Option<Pid>) returns (woken: Option<Pid>)
      requires Threaded() && timers != [] && timers[0].pid in procs && timers[0].pid in waiting
      requires previous.Some? ==> previous.value in ready
      modifies this`ready, this`waiting, this`zombie, this`pcbLinks, this`timers, this`timerPool, this`procs
      ensures Threaded() && View() == Awoken(old(View()), previous) && woken == Some(old(timers[0].pid))
    {
      woken := Some(timers[0].pid);
      MoveBehind(previous, timers[0].pid);
      FreeFirstTimer();
    }

    /** From the waiting list into the ready list. */
    method MoveBehind(previous: Option<Pid>, p: Pid)
      requires Threaded() && p in waiting && (previous.Some? ==> previous.value in ready)
      modifies this`ready, this`waiting, this`zombie, this`pcbLinks
      ensures Threaded()
      ensures View() == old(View()).(waiting := Without(old(waiting), [p]), ready := InsertedBehind(old(ready), previous, p))
    {
      Requeue(previous, p);
    }

    method Requeue(previous: Option<Pid>, p: Pid)
      requires Threaded() && p in waiting && (previous.Some? ==> previous.value in ready)
      modifies this`ready, this`waiting, this`zombie, this`pcbLinks
      ensures Threaded() && zombie == old(zombie) && waiting == Without(old(waiting), [p])
      ensures ready == InsertedBehind(old(ready), previous, p)
    {
      Detach(WaitingList, p);
      var done := Insert(ReadyList, previous, p);
      assert done;
    }

    method FreeFirstTimer()
      requires timers != [] && timers[0].pid in procs
      modifies this`timers, this`timerPool, this`procs
      ensures var p := old(timers[0].pid);
        View() == old(View()).(procs := old(procs)[p := old(procs)[p].(status := Ready, hasTimer := false)],
                               timerPool := old(timerPool).Put(old(timers[0].block)), timers := old(timers[1..]))
    {
      var p := timers[0].pid;
      procs := procs[p := procs[p].(status := Ready, hasTimer := false)];
      timerPool := timerPool.Put(timers[0].block);
      timers := timers[1..];
    }

    // ----- what several calls do

    method SetReturn(v: int)
      requires running.Some? && running.value in procs
      modifies this`procs
      ensures View() == Return(old(View()), v)
    {
      procs := procs[running.value := procs[running.value].(ret := v)];
    }

    /** The head of the ready list runs; sleep and wait leave its status as it is. */
    method TakeNext(mark: bool)
      requires Threaded() && ready != [] && ready[0] in procs
      modifies this`ready, this`waiting, this`zombie, this`pcbLinks, this`running, this`procs
      ensures Threaded() && View() == Dispatch(old(View()), mark)
    {
      var next := DetachFirst();
      if mark {
        procs := procs[next := procs[next].(status := Running)];
      }
      running := Some(next);
    }

    /** The running process goes to the end of the waiting list. */
    method JoinWaiting()
      requires Threaded() && Steady(View())
      modifies this`ready, this`waiting, this`zombie, this`pcbLinks, this`procs
      ensures Threaded() && View().(running := None) == Suspend(old(View()))
      ensures ready != [] ==> ready[0] in procs
    {
      var r := running.value;
      procs := procs[r := procs[r].(status := Waiting)];
      InsertLast(WaitingList, r);
    }

    // ----- internal_sleep

    /** TimerList_add */
    method TimerListAdd(awakening: int, p: Pid) returns (added: bool)
      modifies this`timers, this`timerPool
      ensures added <==> old(timerPool.free) != []
      ensures added ==> timers == InsertTimer(old(timers), Timer(old(timerPool.free[0]), awakening, p))
                        && timerPool == old(timerPool.Take())
      ensures !added ==> timers == old(timers) && timerPool == old(timerPool)
    {
      var aux := 0;
      while aux < |timers| && !(awakening < timers[aux].time)
        invariant 0 <= aux <= |timers|
        invariant forall i :: 0 <= i < aux ==> timers[i].time <= awakening
      {
        aux := aux + 1;
      }
      if timerPool.free == [] {
        return false;
      }
      assert aux == Due(timers, awakening);
      timers := timers[..aux] + [Timer(timerPool.free[0], awakening, p)] + timers[aux..];
      timerPool := timerPool.Take();
      return true;
    }

    method Sleep(cycles: int)
      requires Shape() && Prepared(View(), Call.Sleep(cycles))
      modifies this
      ensures Shape() && View() == DoSleep(old(View()), cycles)
    {
      if procs[running.value].hasTimer {
        SetReturn(DSOS_ESLEEP);
        return;
      }
      var added := TimerListAdd(time + cycles, running.value);
      if !added {
        SetReturn(DSOS_ESLEEP);
        return;
      }
      assert View() == SetTimer(old(View()), cycles);
      FallAsleep();
    }

    /** The end of internal_sleep: if nobody is ready, nobody runs. */
    method FallAsleep()
      requires Threaded() && Steady(View())
      modifies this`ready, this`waiting, this`zombie, this`pcbLinks, this`running, this`procs
      ensures Threaded() && View() == Dispatch(Suspend(old(View())), false)
    {
      JoinWaiting();
      if ready != [] {
        TakeNext(false);
      } else {
        running := None;
      }
    }

    // ----- internal_fork

    method Fork()
      requires Shape() && Prepared(View(), Call.Fork)
      modifies this
      ensures Shape() && View() == DoFork(old(View()))
    {
      var c := lastPid;
      ForkInSteps(View());
      BearReady(c);
    }

    method BearReady(c: Pid)
      requires Threaded() && OnNone(c) && running.Some? && running.value in procs && c !in procs && running.value != c
      modifies this`pcbFree, this`lastPid, this`procs, this`pcbPtrFree, this`ready, this`waiting, this`zombie, this`pcbLinks
      ensures Threaded() && waiting == old(waiting) && zombie == old(zombie) && ready == old(ready) + [c]
      ensures lastPid == old(lastPid) + 1 && pcbFree == old(pcbFree) - 1 && pcbPtrFree == old(pcbPtrFree) - 1
      ensures var me := old(procs[running.value].(children := procs[running.value].children + [c]));
        procs == old(procs)[c := NEW_PCB.(parent := running)][running.value := me][running.value := me.(ret := c)]
    {
      Bear(c);
      Introduce(c);
    }

    /** The new process is ready, and its parent is told its pid. */
    method Introduce(c: Pid)
      requires Threaded() && OnNone(c) && running.Some? && running.value in procs
      modifies this`ready, this`waiting, this`zombie, this`pcbLinks, this`procs
      ensures Threaded() && waiting == old(waiting) && zombie == old(zombie) && ready == old(ready) + [c]
      ensures procs == old(procs)[running.value := old(procs[running.value]).(ret := c)]
    {
      InsertLast(ReadyList, c);
      procs := procs[running.value := procs[running.value].(ret := c)];
    }

    /** A control block for the new process and a place on its parent's list. */
    method Bear(c: Pid)
      requires running.Some? && running.value in procs && c !in procs
      modifies this`pcbFree, this`lastPid, this`procs, this`pcbPtrFree
      ensures lastPid == old(lastPid) + 1 && pcbFree == old(pcbFree) - 1 && pcbPtrFree == old(pcbPtrFree) - 1
      ensures procs == old(procs)[c := NEW_PCB.(parent := running)]
                         [running.value := old(procs[running.value]).(children := old(procs[running.value]).children + [c])]
    {
      var r := running.value;
      pcbFree := pcbFree - 1;
      lastPid := lastPid + 1;
      procs := procs[c := NEW_PCB];
      procs := procs[c := procs[c].(parent := Some(r))];
      pcbPtrFree := pcbPtrFree - 1;
      procs := procs[r := procs[r].(children := procs[r].children + [c])];
    }

    // ----- internal_wait

    /** The scan of the children: it stops at the first match and, failing that, stays on the last child. */
    method ScanChildren(pid: int) returns (awaited: Pid)
      requires running.Some? && running.value in procs && procs[running.value].children != []
      requires forall c :: c in procs[running.value].children ==> c in procs
      ensures awaited == Scan(View(), procs[running.value].children, pid)
    {
      var kids := procs[running.value].children;
      var aux := 0;
      awaited := kids[0];
      while aux < |kids|
        invariant 0 <= aux <= |kids|
        invariant aux < |kids| ==> Scan(View(), kids[aux..], pid) == Scan(View(), kids, pid)
        invariant aux == |kids| ==> awaited == Scan(View(), kids, pid)
        decreases |kids| - aux
      {
        awaited := kids[aux];
        if pid == 0 && procs[awaited].status == Zombie {
          break;
        }
        if pid != 0 && awaited == pid {
          break;
        }
        assert kids[aux..][1..] == kids[aux + 1..];
        aux := aux + 1;
      }
    }

    /** The zombie child's exit value is handed over and its control block freed. */
    method ReapChild(c: Pid, hasCell: bool)
      requires Threaded() && running.Some? && running.value in procs && c in procs && c != running.value
      requires c in procs[running.value].children && c in zombie
      modifies this`procs, this`ready, this`waiting, this`zombie, this`pcbLinks, this`pcbFree, this`pcbPtrFree
      ensures Threaded() && View() == Reap(old(View()), c, hasCell)
    {
      HandOver(c, hasCell);
      pcbPtrFree := pcbPtrFree + 1;
      FreeBlock(c);
    }

    /** The caller's control block gets the child's pid and exit value, and the child leaves its list. */
    method HandOver(c: Pid, hasCell: bool)
      requires running.Some? && running.value in procs && c in procs && c in procs[running.value].children
      modifies this`procs
      ensures View() == Put(old(View()), running.value, Informed(old(View()), c, hasCell))
    {
      var me := procs[running.value];
      me := me.(children := Without(me.children, [c]));
      me := me.(ret := c);
      if hasCell {
        me := me.(cell := procs[c].exitValue);
      }
      procs := procs[running.value := me];
    }

    method Wait(pid: int, hasCell: bool)
      requires Shape() && Prepared(View(), Call.Wait(pid, hasCell))
      modifies this
      ensures Shape() && View() == DoWait(old(View()), pid, hasCell)
    {
      var r := running.value;
      if procs[r].children == [] {
        SetReturn(DSOS_EWAIT);
        return;
      }
      var awaited := ScanChildren(pid);
      Processes.ScanFinds(View(), procs[r].children, pid);
      if procs[awaited].status == Zombie {
        ReapChild(awaited, hasCell);
        return;
      }
      JoinWaiting();
      TakeNext(false);
    }

    // ----- internal_exit

    /** The children go to the end of init's list, one after the other; their parent links stay. */
    method GiveChildrenAway()
      requires running.Some? && running.value in procs && INIT in procs && running.value != INIT
      modifies this`procs
      ensures View() == Reparent(old(View()))
    {
      var r := running.value;
      ghost var kids, before := procs[r].children, procs[INIT].children;
      ghost var k := 0;
      while procs[r].children != []
        invariant 0 <= k <= |kids| && procs.Keys == old(procs.Keys)
        invariant procs[r] == old(procs[r]).(children := kids[k..])
        invariant procs[INIT] == old(procs[INIT]).(children := before + kids[..k])
        invariant forall p :: p in procs && p != r && p != INIT ==> procs[p] == old(procs[p])
        decreases |procs[r].children|
      {
        var item := procs[r].children[0];
        procs := procs[r := procs[r].(children := procs[r].children[1..])];
        procs := procs[INIT := procs[INIT].(children := procs[INIT].children + [item])];
        assert kids[..k + 1] == kids[..k] + [kids[k]];
        k := k + 1;
      }
      assert kids[..k] == kids;
      assert procs == Reparent(old(View())).procs;
    }

    /** The timers of p are taken off the list and freed. */
    method DropTimersOf(p: Pid)
      modifies this`timers, this`timerPool
      ensures timers == OthersTimers(old(timers), p)
      ensures timerPool == old(timerPool).PutAll(TimerBlocks(OwnTimers(old(timers), p)))
    {
      var aux := 0;
      ghost var all, n := timers, 0;
      while aux < |timers|
        invariant SoFar(timers, aux, all, n, p) && timerPool == PoolSoFar(old(timerPool), all, n, p)
        decreases |timers| - aux
      {
        DropAnother(timers, aux, all, n, p);
        OneTimerMore(old(timerPool), all, n, p);
        if timers[aux].pid == p {
          timerPool := timerPool.Put(timers[aux].block);
          timers := timers[..aux] + timers[aux + 1..];
        } else {
          aux := aux + 1;
        }
        n := n + 1;
      }
      assert timers[..aux] == timers && all[..n] == all;
    }

    /** The end of an exit that p is waiting for. */
    method DeliverTo(p: Pid)
      requires Shape() && running.Some? && running.value in procs && p in procs && p != running.value
      requires InWait(View(), p) && p in waiting && running.value in procs[p].children && running.value in zombie
      requires InPlace(Catalog(mqList), procs[running.value].descriptors)
      requires forall i :: 0 <= i < |timers| ==> timers[i].pid != running.value
      modifies this
      ensures Shape()
      ensures View() == Machine.Deliver(old(View()), p).(zombie := Without(old(zombie), [old(running.value)]))
    {
      DeliverInSteps(View(), p);
      TellParent(p);
      FreeProcess();
      running := Some(p);
    }

    /** Everything the running process has is given back, and its control block freed. */
    method FreeProcess()
      requires Shape() && running.Some? && running.value in procs && running.value in zombie
      requires InPlace(Catalog(mqList), procs[running.value].descriptors)
      requires forall i :: 0 <= i < |timers| ==> timers[i].pid != running.value
      modifies this
      ensures Shape()
      ensures View() == Freed(old(View()))
    {
      FreedInSteps(View());
      GiveBack();
      FreeBlock(running.value);
    }

    /** Timers and descriptors of the running process are given back. */
    method GiveBack()
      requires Shape() && running.Some? && running.value in procs
      requires InPlace(Catalog(mqList), procs[running.value].descriptors)
      requires forall i :: 0 <= i < |timers| ==> timers[i].pid != running.value
      modifies this`timers, this`timerPool, this`mqList, this`ptrPool, this`descPool, this`procs
      ensures Listed()
      ensures View() == Put(Release(old(View()), old(procs[running.value]).descriptors), running.value,
                            old(procs[running.value]).(descriptors := []))
    {
      var r := running.value;
      ghost var s := View();
      NoTimersDropped(timers, r);
      DropTimersOf(r);
      assert View() == s;
      DropRounds(s, r, procs[r].descriptors);
      DroppedAll(s, r, procs[r].descriptors);
      DropDescriptors();
    }

    /** The control block of p leaves the zombie list and is freed. */
    method FreeBlock(p: Pid)
      requires Threaded() && p in procs && p in zombie
      modifies this`procs, this`ready, this`waiting, this`zombie, this`pcbLinks, this`pcbFree
      ensures Threaded() && ready == old(ready) && waiting == old(waiting) && pcbFree == old(pcbFree) + 1
      ensures zombie == Without(old(zombie), [p]) && procs == old(procs) - {p}
    {
      Detach(ZombieList, p);
      procs := procs - {p};
      pcbFree := pcbFree + 1;
    }

    /** The parent leaves the waiting list, and its control block is given the child's pid and exit value as if its wait had
        returned them. */
    method TellParent(p: Pid)
      requires Threaded() && running.Some? && running.value in procs && p in procs && p != running.value && InWait(View(), p)
      requires p in waiting && running.value in procs[p].children
      modifies this`procs, this`ready, this`waiting, this`zombie, this`pcbLinks
      ensures Threaded() && View() == Told(old(View()), p)
    {
      Detach(WaitingList, p);
      var parent := procs[p];
      parent := parent.(status := Running);
      parent := parent.(children := Without(parent.children, [running.value]));
      parent := parent.(ret := running.value);
      if parent.call.value.hasCell {
        parent := parent.(cell := procs[running.value].exitValue);
      }
      assert parent == Notified(old(View()), p);
      procs := procs[p := parent];
    }

    /** The exit value is recorded and the children are given away. */
    method Leave(value: int)
      requires running.Some? && running.value in procs && INIT in procs && running.value != INIT
      modifies this`procs
      ensures View() == Depart(old(View()), value)
    {
      procs := procs[running.value := procs[running.value].(exitValue := value)];
      GiveChildrenAway();
    }

    /** The running process goes to the end of the zombie list. */
    method JoinZombies()
      requires Threaded() && Steady(View())
      modifies this`procs, this`ready, this`waiting, this`zombie, this`pcbLinks
      ensures Threaded()
      ensures View() == Put(old(View()), old(running.value), old(procs[running.value]).(status := Zombie))
                          .(zombie := old(zombie + [running.value]))
    {
      procs := procs[running.value := procs[running.value].(status := Zombie)];
      InsertLast(ZombieList, running.value);
    }

    method Exit(value: int)
      requires Shape() && Prepared(View(), Call.Exit(value))
      modifies this
      ensures Shape() && View() == DoExit(old(View()), value)
    {
      var r, p := running.value, procs[running.value].parent.value;
      Leave(value);
      DepartKeepsDescriptors(old(View()), value);
      ghost var u := View();
      JoinZombies();
      if procs[p].status == Waiting && procs[p].call.Some? && procs[p].call.value.Wait? &&
         (procs[p].call.value.pid == 0 || procs[p].call.value.pid == r)
      {
        assert AwaitsExitOf(old(View()), p, r);
        DeliverTo(p);
        DeliverAfterBurial(u, p);
      } else {
        assert !AwaitsExitOf(old(View()), p, r);
        TakeNext(true);
      }
    }

    /** MessageQueueList_byId: an index in place of a pointer, the length of the list in place of null. */
    method MessageQueueListById(id: int) returns (aux: nat)
      ensures aux == QueueIndex(mqList, id)
    {
      aux := 0;
      while aux < |mqList|
        invariant 0 <= aux <= |mqList|
        invariant forall i :: 0 <= i < aux ==> mqList[i].id != id
      {
        if mqList[aux].id == id {
          return;
        }
        aux := aux + 1;
      }
    }

    method PutBody(i: nat, q: Queue)
      requires Listed() && i < |mqList| && q.block == mqList[i].body.block
      modifies this`mqList
      ensures Listed() && |mqList| == |old(mqList)| && mqList[i] == MessageQueue(old(mqList)[i].id, q)
      ensures View() == PutQueue(old(View()), old(mqList)[i].id, q)
      ensures forall id :: QueueIndex(mqList, id) == QueueIndex(old(mqList), id)
    {
      CatalogUpdate(mqList, i, q);
      assert BlocksOf(mqList[i := MessageQueue(mqList[i].id, q)]) == BlocksOf(mqList);
      mqList := mqList[i := MessageQueue(mqList[i].id, q)];
      forall id
        ensures QueueIndex(mqList, id) == QueueIndex(old(mqList), id)
      {
        SameIndex(old(mqList), mqList, id);
      }
    }

    /** Both sides of a descriptor go: the entry of its queue and the blocks of both pools. */
    method ReleaseDescriptor(d: Descriptor)
      requires Listed() && EntryAt(Catalog(mqList), d)
      modifies this`mqList, this`ptrPool, this`descPool
      ensures Listed() && View() == Release(old(View()), [d])
    {
      ghost var s := View();
      CatalogMissing(mqList, d.mq);
      var i := MessageQueueListById(d.mq);
      var q := mqList[i].body;
      PutBody(i, q.(entries := DropEntries(q.entries, [d.ptr])));
      ptrPool := ptrPool.Put(d.ptr);
      descPool := descPool.Put(d.block);
      ReleaseOne(s, d);
    }

    method TakeDescriptor() returns (d: Descriptor)
      requires running.Some? && running.value in procs && procs[running.value].descriptors != []
      modifies this`procs
      ensures d == old(procs[running.value].descriptors[0])
      ensures View() == Put(old(View()), running.value,
                            old(procs[running.value]).(descriptors := old(procs[running.value].descriptors[1..])))
    {
      d := procs[running.value].descriptors[0];
      procs := procs[running.value := procs[running.value].(descriptors := procs[running.value].descriptors[1..])];
    }

    /** The loop of internal_exit over the descriptors. */
    method DropDescriptors()
      requires Listed() && running.Some? && running.value in procs
      requires Droppable(View(), running.value, procs[running.value].descriptors)
      modifies this`mqList, this`ptrPool, this`descPool, this`procs
      ensures Listed()
      ensures View() == DroppedFirst(old(View()), running.value, old(procs[running.value].descriptors),
                                     |old(procs[running.value].descriptors)|)
    {
      ghost var s, r, k := View(), running.value, 0;
      ghost var ds := procs[running.value].descriptors;
      DropNone(s, r, ds);
      while procs[running.value].descriptors != []
        invariant 0 <= k <= |ds| && Listed() && running == Some(r) && r in procs
        invariant procs[r].descriptors == ds[k..] && View() == DroppedFirst(s, r, ds, k)
        decreases |ds| - k
      {
        assert DropRoundOk(s, r, ds, k);
        DropNext(DroppedFirst(s, r, ds, k + 1));
        k := k + 1;
      }
      assert k == |ds|;
    }

    method DropNext(ghost after: State)
      requires Listed() && running.Some? && running.value in procs && procs[running.value].descriptors != []
      requires EntryAt(Catalog(mqList), procs[running.value].descriptors[0])
      requires DroppedNext(View()) == after
      modifies this`mqList, this`ptrPool, this`descPool, this`procs
      ensures Listed() && View() == after
    {
      var d := TakeDescriptor();
      ReleaseDescriptor(d);
    }

    // ----- internal_openMessageQueue

    /** A descriptor on both sides; DescriptorPtr_alloc is not checked. */
    method AttachTo(i: nat)
      requires Listed() && i < |mqList| && running.Some? && running.value in procs
      requires descPool.free != [] ==> ptrPool.free != []
      modifies this`mqList, this`procs, this`descPool, this`ptrPool
      ensures Listed() && View() == Attach(old(View()), old(mqList)[i].id)
    {
      if descPool.free == [] {
        SetReturn(DSOS_ERESOURCENOFD);
        return;
      }
      var id := mqList[i].id;
      var d := NewDescriptor(id);
      IndexOf(mqList, i);
      CatalogMissing(mqList, id);
      var q := mqList[i].body;
      PutBody(i, q.(entries := q.entries + [DescriptorPtr(d.ptr, d.block)]));
    }

    /** The half of a descriptor that the process sees. */
    method NewDescriptor(id: int) returns (d: Descriptor)
      requires descPool.free != [] && ptrPool.free != [] && running.Some? && running.value in procs
      modifies this`procs, this`descPool, this`ptrPool
      ensures d == NewHandle(old(View()), id) && View() == Handled(old(View()), id)
    {
      var me := procs[running.value];
      d := Descriptor(descPool.free[0], me.lastFd, id, ptrPool.free[0]);
      descPool, ptrPool := descPool.Take(), ptrPool.Take();
      me := me.(lastFd := me.lastFd + 1);
      me := me.(descriptors := me.descriptors + [d]);
      procs := procs[running.value := me.(ret := d.fd)];
    }

    /** MessageQueue_alloc and its insertion at the end of mq_list. The block comes with the links it was freed with, and
        List_insert refuses it if it has one: then the queue is on no list. */
    method AddQueue(id: int) returns (added: bool)
      requires Listed() && id !in Catalog(mqList) && mqs.pool.free != []
      modifies this`mqList, this`mqs
      ensures added <==> !Links.Carries(old(mqs.links), old(mqs.pool.free[0]))
      ensures Listed() && View() == Create(old(View()), id)
      ensures added ==> |mqList| == |old(mqList)| + 1 && mqList[|old(mqList)|].id == id
    {
      CatalogAppend(mqList, id, NEW_QUEUE.(block := mqs.pool.free[0]));
      added := AppendQueue(id);
    }

    method AppendQueue(id: int) returns (added: bool)
      requires mqs.pool.free != []
      modifies this`mqList, this`mqs
      ensures added <==> !Links.Carries(old(mqs.links), old(mqs.pool.free[0]))
      ensures added ==> mqs == Grown(old(mqs), old(mqs.pool.free[0]))
      ensures added ==> mqList == old(mqList) + [MessageQueue(id, NEW_QUEUE.(block := old(mqs.pool.free[0])))]
      ensures !added ==> mqList == old(mqList) && mqs == old(mqs).(pool := old(mqs).pool.Take())
    {
      var b := mqs.pool.free[0];
      mqs := mqs.(pool := mqs.pool.Take());
      if Links.Carries(mqs.links, b) {
        return false;
      }
      ThreadLast(b);
      mqList := mqList + [MessageQueue(id, NEW_QUEUE.(block := b))];
      return true;
    }

    /** The writes of List_insert at the end of mq_list. */
    method ThreadLast(b: int)
      modifies this`mqs
      ensures mqs == old(mqs).(list := old(mqs).list + [b],
                               links := Links.Tie(old(mqs).links, Links.First(old(mqs).list), Links.Last(old(mqs).list), b))
    {
      mqs := mqs.(links := Links.Tie(mqs.links, Links.First(mqs.list), Links.Last(mqs.list), b));
      mqs := mqs.(list := mqs.list + [b]);
    }

    /** The create branch of internal_openMessageQueue. */
    method CreateAndAttach(id: int)
      requires Listed() && id !in Catalog(mqList) && running.Some? && running.value in procs
      requires mqs.pool.free != [] && !Links.Carries(mqs.links, mqs.pool.free[0]) && (descPool.free != [] ==> ptrPool.free != [])
      modifies this`mqList, this`mqs, this`procs, this`descPool, this`ptrPool
      ensures Listed() && View() == Attach(Create(old(View()), id), id)
    {
      var added := AddQueue(id);
      assert added;
      AttachTo(|mqList| - 1);
    }

    method Open(id: int, mode: int)
      requires Shape() && Prepared(View(), Call.Open(id, mode))
      modifies this
      ensures Shape() && View() == DoOpen(old(View()), id, mode)
    {
      var i := MessageQueueListById(id);
      CatalogMissing(mqList, id);
      if mode == DSOS_CREATE {
        if i < |mqList| {
          SetReturn(DSOS_ERESOURCECREATE);
          return;
        }
        CreateAndAttach(id);
        return;
      }
      if i >= |mqList| {
        SetReturn(DSOS_ERESOURCEOPEN);
        return;
      }
      if mode == DSOS_EXCL && mqList[i].body.entries != [] {
        SetReturn(DSOS_ERESOURCENOEXCL);
        return;
      }
      AttachTo(i);
    }

    // ----- internal_closeMessageQueue

    /** DescriptorList_byFd: an index in place of a pointer, the length of the list in place of null. */
    method DescriptorListByFd(ds: seq<Descriptor>, fd: int) returns (aux: nat)
      ensures aux == FdIndex(ds, fd)
    {
      aux := 0;
      while aux < |ds|
        invariant 0 <= aux <= |ds|
        invariant forall i :: 0 <= i < aux ==> ds[i].fd != fd
      {
        if ds[aux].fd == fd {
          return;
        }
        aux := aux + 1;
      }
    }

    method Close(fd: int)
      requires Shape() && Prepared(View(), Call.Close(fd))
      modifies this
      ensures Shape() && View() == DoClose(old(View()), fd)
    {
      var me := procs[running.value];
      var k := DescriptorListByFd(me.descriptors, fd);
      if k == |me.descriptors| {
        SetReturn(DSOS_ERESOURCECLOSE);
        return;
      }
      var d := me.descriptors[k];
      me := me.(descriptors := me.descriptors[..k] + me.descriptors[k + 1..]);
      ReleaseDescriptor(d);
      SetMe(me.(ret := 0));
    }

    method SetMe(me: Pcb)
      requires running.Some?
      modifies this`procs
      ensures View() == Put(old(View()), running.value, me)
    {
      procs := procs[running.value := me];
    }

    // ----- internal_destroyMessageQueue

    method Destroy(id: int)
      requires Shape() && Prepared(View(), Call.Destroy(id))
      modifies this
      ensures Shape() && View() == DoDestroy(old(View()), id)
    {
      var i := MessageQueueListById(id);
      CatalogMissing(mqList, id);
      if i == |mqList| {
        SetReturn(DSOS_ERESOURCECLOSE);
        return;
      }
      if mqList[i].body.entries != [] {
        SetReturn(DSOS_ERESOURCEINUSE);
        return;
      }
      RemoveQueue(i);
      SetReturn(0);
    }

    /** The queue is detached from mq_list, which clears the links of its block, and the block is freed. */
    method RemoveQueue(i: nat)
      requires Listed() && i < |mqList| && NoDup(mqs.list)
      modifies this`mqList, this`mqs
      ensures Listed() && View() == Vanish(old(View()), old(mqList[i].id))
    {
      var b := mqList[i].body.block;
      CatalogRemove(mqList, i);
      IndexOf(mqList, i);
      CatalogMissing(mqList, mqList[i].id);
      Links.WithoutAt(mqs.list, i);
      BlocksWithout(mqList, i);
      mqs := mqs.(links := Links.Untie(mqs.links, b));
      mqs := mqs.(list := Without(mqs.list, [b]));
      mqList := mqList[..i] + mqList[i + 1..];
      mqs := mqs.(pool := mqs.pool.Put(b));
    }

    // ----- waking the processes blocked on a queue

    /** One of them goes to the end of the ready list, with the notice that its call was not done. */
    method WakeBlockedOne(p: Pid)
      requires Threaded() && p in procs && p in waiting
      modifies this`ready, this`waiting, this`zombie, this`pcbLinks, this`procs
      ensures Threaded() && View() == BlockedAwoken(old(View()), p)
    {
      MakeReady(p);
      procs := procs[p := procs[p].(status := Ready)];
      procs := procs[p := procs[p].(ret := EWOKEN)];
    }

    method MakeReady(p: Pid)
      requires Threaded() && p in waiting
      modifies this`ready, this`waiting, this`zombie, this`pcbLinks
      ensures Threaded() && zombie == old(zombie) && waiting == Without(old(waiting), [p]) && ready == old(ready) + [p]
    {
      Detach(WaitingList, p);
      InsertLast(ReadyList, p);
    }

    /** One round for the readers. */
    method WakeFirstReader(i: nat)
      requires Shape() && i < |mqList| && mqList[i].body.readers != []
      requires mqList[i].body.readers[0] in procs && mqList[i].body.readers[0] in waiting
      modifies this`ready, this`waiting, this`zombie, this`pcbLinks, this`procs, this`mqList
      ensures Shape() && |mqList| == |old(mqList)|
      ensures mqList[i] == old(mqList)[i].(body := old(mqList)[i].body.(readers := old(mqList)[i].body.readers[1..]))
      ensures View() == BlockedAwoken(PutQueue(old(View()), old(mqList)[i].id, mqList[i].body), old(mqList)[i].body.readers[0])
    {
      var p, q := mqList[i].body.readers[0], mqList[i].body;
      PutBody(i, q.(readers := q.readers[1..]));
      WakeBlockedOne(p);
    }

    /** The loop of internal_MessageQueue_write over the blocked readers. */
    method WakeReaders(i: nat)
      requires Shape() && i < |mqList| && Wakeable(View(), mqList[i].body.readers)
      modifies this`ready, this`waiting, this`zombie, this`pcbLinks, this`procs, this`mqList
      ensures Shape() && |mqList| == |old(mqList)|
      ensures mqList[i] == old(mqList)[i].(body := old(mqList)[i].body.(readers := []))
      ensures View() == ReadersWoken(old(View()), old(mqList)[i].id, |old(mqList)[i].body.readers|)
    {
      ghost var s, q, id, k := View(), mqList[i].body, mqList[i].id, 0;
      IndexOf(mqList, i);
      CatalogMissing(mqList, id);
      NoReaderWoken(s, id);
      while |mqList[i].body.readers| > 0
        invariant 0 <= k <= |q.readers| && Shape() && |mqList| == |old(mqList)|
        invariant mqList[i] == MessageQueue(id, q.(readers := q.readers[k..]))
        invariant View() == ReadersWoken(s, id, k)
        decreases |mqList[i].body.readers|
      {
        ReadersRound(s, id, k);
        assert q.readers[k..][0] == q.readers[k] && q.readers[k..][1..] == q.readers[k + 1..];
        WakeFirstReader(i);
        k := k + 1;
      }
    }

    /** One round for the writers; the pointer block of the one woken is freed. */
    method WakeFirstWriter(i: nat)
      requires Shape() && i < |mqList| && mqList[i].body.writers != []
      requires mqList[i].body.writers[0] in procs && mqList[i].body.writers[0] in waiting
      modifies this`ready, this`waiting, this`zombie, this`pcbLinks, this`procs, this`mqList, this`pcbPtrFree
      ensures Shape() && |mqList| == |old(mqList)|
      ensures mqList[i] == old(mqList)[i].(body := old(mqList)[i].body.(writers := old(mqList)[i].body.writers[1..]))
      ensures View() == BlockedAwoken(PutQueue(old(View()), old(mqList)[i].id, mqList[i].body), old(mqList)[i].body.writers[0])
                          .(pcbPtrFree := old(pcbPtrFree) + 1)
    {
      var p, q := mqList[i].body.writers[0], mqList[i].body;
      PutBody(i, q.(writers := q.writers[1..]));
      WakeBlockedOne(p);
      pcbPtrFree := pcbPtrFree + 1;
    }

    /** The loop of internal_MessageQueue_read over the blocked writers; their PCBPtr blocks are freed. */
    method WakeWriters(i: nat)
      requires Shape() && i < |mqList| && Wakeable(View(), mqList[i].body.writers)
      modifies this`ready, this`waiting, this`zombie, this`pcbLinks, this`procs, this`mqList, this`pcbPtrFree
      ensures Shape() && |mqList| == |old(mqList)|
      ensures mqList[i] == old(mqList)[i].(body := old(mqList)[i].body.(writers := []))
      ensures View() == WritersWoken(old(View()), old(mqList)[i].id, |old(mqList)[i].body.writers|)
    {
      ghost var s, q, id, k := View(), mqList[i].body, mqList[i].id, 0;
      IndexOf(mqList, i);
      CatalogMissing(mqList, id);
      NoWriterWoken(s, id);
      while |mqList[i].body.writers| > 0
        invariant 0 <= k <= |q.writers| && Shape() && |mqList| == |old(mqList)|
        invariant mqList[i] == MessageQueue(id, q.(writers := q.writers[k..]))
        invariant View() == WritersWoken(s, id, k)
        decreases |mqList[i].body.writers|
      {
        WritersRound(s, id, k);
        assert q.writers[k..][0] == q.writers[k] && q.writers[k..][1..] == q.writers[k + 1..];
        WakeFirstWriter(i);
        k := k + 1;
      }
    }

    // ----- internal_MessageQueue_write

    /** The copy loop of Message_alloc. */
    method MessageAlloc(buffer: array<byte>, length: nat) returns (m: Message)
      requires length <= buffer.Length
      modifies this`msgFree
      ensures m == buffer[..length] && msgFree == old(msgFree) - 1
    {
      msgFree := msgFree - 1;
      m := [];
      var i := 0;
      while i < length
        invariant 0 <= i <= length && m == buffer[..i]
      {
        m := m + [buffer[i]];
        i := i + 1;
      }
    }

    /** The running process blocks on a queue, as a reader or as a writer. */
    method BlockOn(i: nat, asReader: bool)
      requires Shape() && i < |mqList| && Steady(View()) && ready != []
      modifies this
      ensures Shape()
      ensures View() == Dispatch(Suspend(if asReader then JoinReaders(old(View()), old(mqList)[i].id)
                                         else JoinWriters(old(View()), old(mqList)[i].id)), true)
    {
      var q, r := mqList[i].body, running.value;
      IndexOf(mqList, i);
      CatalogMissing(mqList, mqList[i].id);
      JoinWaiting();
      pcbPtrFree := pcbPtrFree - 1;
      PutBody(i, if asReader then q.(readers := q.readers + [r]) else q.(writers := q.writers + [r]));
      TakeNext(true);
    }

    method Write(id: int, buffer: array<byte>, length: nat)
      requires Shape() && length <= buffer.Length && Prepared(View(), Call.Write(id, buffer[..length]))
      modifies this
      ensures Shape() && View() == DoWrite(old(View()), id, buffer[..length])
    {
      if length > MAX_LEN_MESSAGE {
        SetReturn(ETOOLONG);
        return;
      }
      var i := MessageQueueListById(id);
      CatalogMissing(mqList, id);
      if i == |mqList| {
        SetReturn(DSOS_ERESOURCENOFD);
        return;
      }
      if mqList[i].body.numWritten == MAX_NUM_MESSAGES {
        BlockOn(i, false);
        return;
      }
      AppendMessage(i, buffer, length);
      SetReturn(length);
    }

    /** A message that fits: it is copied into a block and goes to the end of the queue, the readers are woken, and it is
        counted. */
    method AppendMessage(i: nat, buffer: array<byte>, length: nat)
      requires Shape() && i < |mqList| && length <= buffer.Length && running.Some? && running.value in procs
      requires Wakeable(View(), mqList[i].body.readers)
      modifies this
      ensures Shape() && running == old(running) && procs.Keys == old(procs.Keys)
      ensures View() == Append(old(View()), old(mqList)[i].id, buffer[..length])
    {
      IndexOf(mqList, i);
      CatalogMissing(mqList, mqList[i].id);
      AppendIsThat(View(), mqList[i].id, buffer[..length]);
      WakeableSame(View(), View().(msgFree := msgFree - 1), mqList[i].body.readers);
      var message := MessageAlloc(buffer, length);
      PassOnMessage(i, message);
    }

    /** What a write does with the message in its block. */
    method PassOnMessage(i: nat, message: Message)
      requires Shape() && i < |mqList| && mqList[i].id in View().queues && View().queues[mqList[i].id] == mqList[i].body
      requires Wakeable(View(), mqList[i].body.readers)
      modifies this`ready, this`waiting, this`zombie, this`pcbLinks, this`procs, this`mqList
      ensures Shape() && procs.Keys == old(procs.Keys)
      ensures View() == Appended(old(View()), old(mqList)[i].id, message)
    {
      var q := mqList[i].body;
      ghost var s, id := View(), mqList[i].id;
      SetMessages(i, q.messages + [message], q.readers);
      ghost var t := View();
      WakeReaders(i);
      ghost var u := View();
      var counted := mqList[i].body.(numWritten := mqList[i].body.numWritten + 1);
      assert counted == AfterWrite(q, message);
      PutBody(i, counted);
      AppendedSteps(s, t, u, View(), id, q, message);
    }

    /** The messages change; those blocked on the queue can be woken as before. */
    method SetMessages(i: nat, ms: seq<Message>, ghost blocked: seq<Pid>)
      requires Listed() && i < |mqList| && Wakeable(View(), blocked)
      modifies this`mqList
      ensures Listed() && |mqList| == |old(mqList)|
      ensures mqList[i] == old(mqList)[i].(body := old(mqList)[i].body.(messages := ms))
      ensures View() == WithMessages(old(View()), mqList[i].id, ms)
      ensures Wakeable(View(), blocked)
    {
      ghost var s := View();
      IndexOf(mqList, i);
      CatalogMissing(mqList, mqList[i].id);
      PutBody(i, mqList[i].body.(messages := ms));
      WakeableSame(s, View(), blocked);
    }

    // ----- internal_MessageQueue_read

    /** The copy loop of internal_MessageQueue_read. */
    method CopyOut(m: Message, dest: array<byte>)
      requires |m| <= dest.Length
      modifies dest
      ensures dest[..|m|] == m && dest[|m|..] == old(dest[|m|..])
    {
      var i := 0;
      while i < |m|
        invariant 0 <= i <= |m| && dest[..i] == m[..i] && dest[|m|..] == old(dest[|m|..])
      {
        dest[i] := m[i];
        assert dest[..i + 1] == dest[..i] + [m[i]];
        i := i + 1;
      }
    }

    method Read(id: int, room: int, dest: array<byte>)
      requires Shape() && room <= dest.Length && Prepared(View(), Call.Read(id, room))
      modifies this, dest
      ensures Shape() && View() == DoRead(old(View()), id, room)
      ensures Filled(old(dest[..]), dest[..], Copied(old(View()), id, room))
    {
      var i := MessageQueueListById(id);
      CatalogMissing(mqList, id);
      if mqList[i].body.messages == [] {
        BlockOn(i, true);
        return;
      }
      var message := mqList[i].body.messages[0];
      if |message| > room {
        SetReturn(ESHORTBUFFER);
        return;
      }
      RemoveMessage(i, dest);
      SetReturn(|message|);
    }

    /** The first message is taken off, the writers are woken, the message is copied out if nobody is left among them, and it
        is counted off. */
    method RemoveMessage(i: nat, dest: array<byte>)
      requires Shape() && i < |mqList| && mqList[i].body.messages != [] && running.Some? && running.value in procs
      requires Wakeable(View(), mqList[i].body.writers) && |mqList[i].body.messages[0]| <= dest.Length
      modifies this, dest
      ensures Shape() && running == old(running) && procs.Keys == old(procs.Keys)
      ensures old(mqList)[i].id in Catalog(old(mqList)) && View() == Remove(old(View()), old(mqList)[i].id)
      ensures Filled(old(dest[..]), dest[..], Some(old(mqList)[i].body.messages[0]))
    {
      IndexOf(mqList, i);
      CatalogMissing(mqList, mqList[i].id);
      RemoveIsThat(View(), mqList[i].id);
      ghost var q := mqList[i].body;
      var message := mqList[i].body.messages[0];
      TakeMessage(i);
      if |mqList[i].body.writers| == 0 {
        CopyOut(message, dest);
      }
      var counted := mqList[i].body.(numWritten := mqList[i].body.numWritten - 1);
      assert counted == AfterRead(q);
      PutBody(i, counted);
    }

    /** The first message is taken off and the writers are woken. */
    method TakeMessage(i: nat)
      requires Shape() && i < |mqList| && mqList[i].id in View().queues && View().queues[mqList[i].id] == mqList[i].body
      requires mqList[i].body.messages != [] && Wakeable(View(), mqList[i].body.writers)
      modifies this`ready, this`waiting, this`zombie, this`pcbLinks, this`procs, this`mqList, this`pcbPtrFree
      ensures Shape() && procs.Keys == old(procs.Keys) && |mqList| == |old(mqList)| && mqList[i].id == old(mqList)[i].id
      ensures mqList[i].body == old(mqList)[i].body.(messages := old(mqList)[i].body.messages[1..]).(writers := [])
      ensures View() == WritersWoken(WithMessages(old(View()), old(mqList)[i].id, old(mqList)[i].body.messages[1..]),
                                     old(mqList)[i].id, |old(mqList)[i].body.writers|)
    {
      SetMessages(i, mqList[i].body.messages[1..], mqList[i].body.writers);
      WakeWriters(i);
    }

    // ----- syscalls and interrupts

    /** timerInterrupt */
    method Interrupt()
      requires Valid() && running.Some?
      modifies this
      ensures Valid() && View() == Step(old(View()), Event.Interrupt)
    {
      Runs.StepKeeps(View(), Event.Interrupt);
      ClockPrepared(View());
      AdvanceClock();
    }

    method AdvanceClock()
      requires Shape() && CanSchedule(Clock(View()))
      modifies this
      ensures Shape() && View() == Step(old(View()), Event.Interrupt)
    {
      time := time + 1;
      assert View() == Clock(old(View()));
      Schedule();
    }

    /** disastrOS_trap: the call is performed; buffer is what a read fills and a write takes its message from. */
    method PerformCall(c: Call, buffer: array<byte>)
      requires Shape() && Prepared(View(), c)
      requires c.Read? ==> c.room <= buffer.Length
      requires c.Write? ==> |c.data| <= buffer.Length && buffer[..|c.data|] == c.data
      modifies this, buffer
      ensures Shape() && View() == Perform(old(View()), c)
      ensures Filled(old(buffer[..]), buffer[..], if c.Read? then Copied(old(View()), c.id, c.room) else None)
    {
      match c
      case Preempt => Schedule();
      case Fork => Fork();
      case Sleep(cycles) => Sleep(cycles);
      case Wait(pid, hasCell) => Wait(pid, hasCell);
      case Exit(value) => Exit(value);
      case Open(id, mode) => Open(id, mode);
      case Close(fd) => Close(fd);
      case Destroy(id) => Destroy(id);
      case Write(id, data) => Write(id, buffer, |data|);
      case Read(id, room) => Read(id, room, buffer);
    }

    /** disastrOS_syscall: the caller's control block records the call before the trap. */
    method Trap(c: Call, buffer: array<byte>)
      requires Valid() && Defined(View(), Event.Trap(c))
      requires c.Read? ==> c.room <= buffer.Length
      requires c.Write? ==> |c.data| <= buffer.Length && buffer[..|c.data|] == c.data
      modifies this, buffer
      ensures Valid() && View() == Step(old(View()), Event.Trap(c))
      ensures Filled(old(buffer[..]), buffer[..], if c.Read? then Copied(old(View()), c.id, c.room) else None)
    {
      Runs.StepKeeps(View(), Event.Trap(c));
      TrapPrepared(View(), c);
      RecordAndPerform(c, buffer);
    }

    method RecordAndPerform(c: Call, buffer: array<byte>)
      requires Shape() && running.Some? && running.value in procs && Prepared(Enter(View(), c), c)
      requires c.Read? ==> c.room <= buffer.Length
      requires c.Write? ==> |c.data| <= buffer.Length && buffer[..|c.data|] == c.data
      modifies this, buffer
      ensures Shape() && View() == Step(old(View()), Event.Trap(c))
      ensures Filled(old(buffer[..]), buffer[..], if c.Read? then Copied(old(View()), c.id, c.room) else None)
    {
      RecordCall(c);
      PerformCall(c, buffer);
    }

    method RecordCall(c: Call)
      requires running.Some? && running.value in procs
      modifies this`procs
      ensures View() == Enter(old(View()), c)
    {
      procs := procs[running.value := procs[running.value].(call := Some(c))];
    }
  }

  // ----- the rounds of the loops over blocked processes

  /** s after one blocked process is woken. */
  function BlockedAwoken(s: State, p: Pid): State {
    Put(s, p, At(s, p).(status := Ready, ret := EWOKEN)).(waiting := Without(s.waiting, [p]), ready := s.ready + [p])
  }

  /** s after the first k readers of queue id are woken. */
  ghost function ReadersWoken(s: State, id: int, k: nat): State
    requires k <= |QueueAt(s, id).readers|
  {
    var q := QueueAt(s, id);
    PutQueue(WakeBlocked(s, q.readers[..k]), id, q.(readers := q.readers[k..]))
  }

  /** s after the first k writers of queue id are woken and their blocks freed. */
  ghost function WritersWoken(s: State, id: int, k: nat): State
    requires k <= |QueueAt(s, id).writers|
  {
    var q := QueueAt(s, id);
    PutQueue(WakeBlocked(s, q.writers[..k]), id, q.(writers := q.writers[k..])).(pcbPtrFree := s.pcbPtrFree + k)
  }

  lemma ReadersRound(s: State, id: int, k: nat)
    requires k < |QueueAt(s, id).readers| && BlockedRoundOk(s, QueueAt(s, id).readers, k)
    ensures var q, t, p := QueueAt(s, id), ReadersWoken(s, id, k), QueueAt(s, id).readers[k];
      && p in t.procs && p in t.waiting
      && ReadersWoken(s, id, k + 1) == BlockedAwoken(PutQueue(t, id, q.(readers := q.readers[k + 1..])), p)
  { }

  lemma WritersRound(s: State, id: int, k: nat)
    requires k < |QueueAt(s, id).writers| && BlockedRoundOk(s, QueueAt(s, id).writers, k)
    ensures var q, t, p := QueueAt(s, id), WritersWoken(s, id, k), QueueAt(s, id).writers[k];
      && p in t.procs && p in t.waiting
      && WritersWoken(s, id, k + 1) ==
           BlockedAwoken(PutQueue(t, id, q.(writers := q.writers[k + 1..])), p).(pcbPtrFree := t.pcbPtrFree + 1)
  { }

  /** Round k finds its process waiting and makes of the state after k wakings the one after k + 1. */
  ghost predicate BlockedRoundOk(s: State, ps: seq<Pid>, k: nat)
    requires k < |ps|
  {
    var t, u, p := WakeBlocked(s, ps[..k]), WakeBlocked(s, ps[..k + 1]), ps[k];
    && p in t.procs && p in t.waiting
    && u == BlockedAwoken(t, p)
  }

  ghost predicate Wakeable(s: State, ps: seq<Pid>) {
    forall k {:trigger BlockedRoundOk(s, ps, k)} :: 0 <= k < |ps| ==> BlockedRoundOk(s, ps, k)
  }

  lemma WokenNobody(s: State, ps: seq<Pid>)
    ensures WakeBlocked(s, ps[..0]) == s
  {
    WithoutNothing(s.waiting, ps[..0]);
    assert ps[..0] == [] && Retried(s.procs, []) == s.procs;
  }

  lemma NoReaderWoken(s: State, id: int)
    requires id in s.queues
    ensures ReadersWoken(s, id, 0) == s
  {
    WokenNobody(s, QueueAt(s, id).readers);
  }

  lemma NoWriterWoken(s: State, id: int)
    requires id in s.queues
    ensures WritersWoken(s, id, 0) == s
  {
    WokenNobody(s, QueueAt(s, id).writers);
  }

  lemma BlockedWakeable(s: State, ps: seq<Pid>)
    requires Places(s) && NoDup(ps) && forall p :: p in ps ==> p in s.waiting
    ensures Wakeable(s, ps)
  {
    forall k | 0 <= k < |ps|
      ensures BlockedRoundOk(s, ps, k)
    {
      BlockedRound(s, ps, k);
    }
  }

  lemma BlockedRound(s: State, ps: seq<Pid>, k: nat)
    requires Places(s) && NoDup(ps) && k < |ps| && forall p :: p in ps ==> p in s.waiting
    ensures BlockedRoundOk(s, ps, k)
  {
    var a, p := ps[..k], ps[k];
    assert ps[..k + 1] == a + [p];
    assert p in ps && p !in a;
    Frames.ReadyNotWaiting(s);
    WithoutTwice(s.waiting, a, [p]);
    RetriedAppend(s.procs, a, p);
    assert s.ready + (a + [p]) == (s.ready + a) + [p];
  }

  lemma RetriedAppend(procs: map<Pid, Pcb>, ps: seq<Pid>, p: Pid)
    requires p in procs && p !in ps
    ensures Retried(procs, ps + [p]) == Retried(procs, ps)[p := Retried(procs, ps)[p].(status := Ready, ret := EWOKEN)]
  { }

  lemma WakeableSame(s: State, t: State, ps: seq<Pid>)
    requires Wakeable(s, ps) && t == s.(queues := t.queues, msgFree := t.msgFree)
    ensures Wakeable(t, ps)
  {
    forall k | 0 <= k < |ps|
      ensures BlockedRoundOk(t, ps, k)
    {
      assert BlockedRoundOk(s, ps, k);
    }
  }

  /** s after a change to the messages of queue id and before the blocked processes are woken. */
  ghost function WithMessages(s: State, id: int, ms: seq<Message>): State {
    PutQueue(s, id, QueueAt(s, id).(messages := ms))
  }

  /** What a successful write does once its message is in a block, in the order in which it does it: the message goes to the end,
      the readers are woken, the message is counted. */
  ghost function Appended(s: State, id: int, data: Message): State {
    var q, t := QueueAt(s, id), WithMessages(s, id, QueueAt(s, id).messages + [data]);
    PutQueue(ReadersWoken(t, id, |q.readers|), id, AfterWrite(q, data))
  }

  function AfterWrite(q: Queue, data: Message): Queue {
    q.(messages := q.messages + [data], readers := [], numWritten := q.numWritten + 1)
  }

  function AfterRead(q: Queue): Queue
    requires q.messages != []
  {
    q.(messages := q.messages[1..], writers := [], numWritten := q.numWritten - 1)
  }

  lemma AppendedSteps(s: State, t: State, u: State, v: State, id: int, q: Queue, data: Message)
    requires q == QueueAt(s, id) && t == WithMessages(s, id, q.messages + [data])
    requires u == ReadersWoken(t, id, |q.readers|) && v == PutQueue(u, id, AfterWrite(q, data))
    ensures v == Appended(s, id, data)
  { }

  /** What a successful read does, in the order in which it does it: the first message is detached, the writers are woken, the
      message is counted off. */
  ghost function Removed(s: State, id: int): State
    requires QueueAt(s, id).messages != []
  {
    var q, t := QueueAt(s, id), WithMessages(s, id, QueueAt(s, id).messages[1..]);
    PutQueue(WritersWoken(t, id, |q.writers|), id, AfterRead(q))
  }

  lemma AppendIsThat(s: State, id: int, data: Message)
    requires id in s.queues
    ensures Append(s, id, data) == Appended(s.(msgFree := s.msgFree - 1), id, data)
  {
    assert s.queues[id].readers[..|s.queues[id].readers|] == s.queues[id].readers;
  }

  lemma RemoveIsThat(s: State, id: int)
    requires id in s.queues && s.queues[id].messages != []
    ensures Remove(s, id) == Removed(s, id)
  {
    assert s.queues[id].writers[..|s.queues[id].writers|] == s.queues[id].writers;
  }

  lemma DepartKeepsDescriptors(s: State, value: int)
    ensures var u := Depart(s, value);
      && u.queues == s.queues && u.timers == s.timers && u.running == s.running && u.ready == s.ready && u.waiting == s.waiting
      && u.zombie == s.zombie
      && (forall k: Pid :: At(u, k).descriptors == At(s, k).descriptors && At(u, k).call == At(s, k).call
                           && At(u, k).status == At(s, k).status)
      && (forall k: Pid :: k in s.procs ==> k in u.procs)
      && (forall k: Pid, c :: k != Cur(s) && c in At(s, k).children ==> c in At(u, k).children)
  { }

  /** The control blocks after a fork, written one after the other. */
  lemma ForkInSteps(s: State)
    requires Cur(s) in s.procs && Cur(s) != s.lastPid
    ensures var c, me := s.lastPid, Me(s).(children := Me(s).children + [s.lastPid]);
      DoFork(s) == s.(procs := s.procs[c := NEW_PCB.(parent := Some(Cur(s)))][Cur(s) := me][Cur(s) := me.(ret := c)],
                      lastPid := c + 1, ready := s.ready + [c], pcbFree := s.pcbFree - 1, pcbPtrFree := s.pcbPtrFree - 1)
  { }

  /** s after p is told that the running process has exited. */
  ghost function Told(s: State, p: Pid): State {
    Put(s, p, Notified(s, p)).(waiting := Without(s.waiting, [p]))
  }

  /** s after everything the running process has is given back and its control block freed. */
  ghost function Freed(s: State): State {
    Release(s, Me(s).descriptors).(procs := s.procs - {Cur(s)}, zombie := Without(s.zombie, [Cur(s)]), pcbFree := s.pcbFree + 1)
  }

  lemma FreedInSteps(s: State)
    requires Cur(s) in s.procs
    ensures var r, ds := Cur(s), Me(s).descriptors;
      Freed(s) == Put(Release(s, ds), r, At(s, r).(descriptors := []))
                    .(procs := Put(Release(s, ds), r, At(s, r).(descriptors := [])).procs - {r}, zombie := Without(s.zombie, [r]),
                      pcbFree := s.pcbFree + 1)
  {
    var r := Cur(s);
    assert s.procs[r := At(s, r).(descriptors := [])] - {r} == s.procs - {r};
  }

  lemma DeliverInSteps(s: State, p: Pid)
    requires p != Cur(s)
    ensures Freed(Told(s, p)).(running := Some(p)) == Machine.Deliver(s, p).(zombie := Without(s.zombie, [Cur(s)]))
    ensures Me(Told(s, p)) == Me(s)
  { }

  /** That the exiting process was a zombie for a moment leaves no trace. */
  lemma DeliverAfterBurial(s: State, p: Pid)
    requires Cur(s) in s.procs && Cur(s) !in s.zombie && p != Cur(s)
    ensures var b := Put(s, Cur(s), Me(s).(status := Zombie)).(zombie := s.zombie + [Cur(s)]);
      Machine.Deliver(b, p).(zombie := Without(b.zombie, [Cur(s)])) == Machine.Deliver(s, p)
  {
    var b := Put(s, Cur(s), Me(s).(status := Zombie)).(zombie := s.zombie + [Cur(s)]);
    WithoutAppend(s.zombie, [Cur(s)], [Cur(s)]);
    WithoutNothing(s.zombie, [Cur(s)]);
    assert [Cur(s)][1..] == [];
    assert Machine.Deliver(b, p).procs == Machine.Deliver(s, p).procs;
  }

  // ----- descriptors one at a time

  /** d's queue has its entry, and no other queue has one in that block. */
  ghost predicate EntryAt(queues: map<int, Queue>, d: Descriptor) {
    && d.mq in queues && DescriptorPtr(d.ptr, d.block) in queues[d.mq].entries
    && forall id, e :: id in queues && e in queues[id].entries && e.block == d.ptr ==> id == d.mq
  }

  /** Every one of ds has its entry, each in its own block. */
  ghost predicate InPlace(queues: map<int, Queue>, ds: seq<Descriptor>) {
    && (forall d :: d in ds ==> EntryAt(queues, d))
    && (forall i, j :: 0 <= i < j < |ds| ==> ds[i].ptr != ds[j].ptr)
  }

  lemma {:induction false} DropNothing(es: seq<DescriptorPtr>, bs: seq<int>)
    requires forall e :: e in es ==> e.block !in bs
    ensures DropEntries(es, bs) == es
  {
    if es != [] {
      assert es[0] in es;
      DropNothing(es[1..], bs);
    }
  }

  lemma {:induction false} DropTwice(es: seq<DescriptorPtr>, a: seq<int>, b: seq<int>)
    ensures DropEntries(DropEntries(es, a), b) == DropEntries(es, a + b)
  {
    if es != [] {
      DropTwice(es[1..], a, b);
      if es[0].block !in a {
        assert ([es[0]] + DropEntries(es[1..], a))[1..] == DropEntries(es[1..], a);
      }
    }
  }

  lemma ReleaseOne(s: State, d: Descriptor)
    requires EntryAt(s.queues, d)
    ensures Release(s, [d]) ==
              PutQueue(s, d.mq, s.queues[d.mq].(entries := DropEntries(s.queues[d.mq].entries, [d.ptr])))
                .(ptrPool := s.ptrPool.Put(d.ptr), descPool := s.descPool.Put(d.block))
  {
    assert Ptrs([d]) == [d.ptr] && Blocks([d]) == [d.block];
    forall id | id in s.queues && id != d.mq
      ensures DropEntries(s.queues[id].entries, [d.ptr]) == s.queues[id].entries
    {
      forall e | e in s.queues[id].entries
        ensures e.block != d.ptr
      { }
      DropNothing(s.queues[id].entries, [d.ptr]);
    }
    Frames.PutOne(s.ptrPool, d.ptr);
    Frames.PutOne(s.descPool, d.block);
    assert Release(s, [d]).queues == s.queues[d.mq := s.queues[d.mq].(entries := DropEntries(s.queues[d.mq].entries, [d.ptr]))];
  }

  lemma ReleaseNone(s: State, ds: seq<Descriptor>)
    ensures Release(s, ds[..0]) == s
  {
    forall id | id in s.queues
      ensures DropEntries(s.queues[id].entries, Ptrs(ds[..0])) == s.queues[id].entries
    {
      DropNothing(s.queues[id].entries, Ptrs(ds[..0]));
    }
    assert Ptrs(ds[..0]) == [] && Blocks(ds[..0]) == [];
    assert Release(s, ds[..0]).queues == s.queues;
  }

  lemma ReleaseNext(s: State, ds: seq<Descriptor>, k: nat)
    requires k < |ds|
    ensures Release(s, ds[..k + 1]) == Release(Release(s, ds[..k]), [ds[k]])
  {
    var a, d := ds[..k], ds[k];
    assert ds[..k + 1] == a + [d];
    assert Ptrs(ds[..k + 1]) == Ptrs(a) + Ptrs([d]) && Blocks(ds[..k + 1]) == Blocks(a) + Blocks([d]);
    assert Ptrs([d]) == [d.ptr] && Blocks([d]) == [d.block];
    PutAllAppend(s.descPool, Blocks(a), d.block);
    PutAllAppend(s.ptrPool, Ptrs(a), d.ptr);
    Frames.PutOne(s.descPool.PutAll(Blocks(a)), d.block);
    Frames.PutOne(s.ptrPool.PutAll(Ptrs(a)), d.ptr);
    forall id | id in s.queues
      ensures DropEntries(s.queues[id].entries, Ptrs(a) + [d.ptr]) == DropEntries(DropEntries(s.queues[id].entries, Ptrs(a)), [d.ptr])
    {
      DropTwice(s.queues[id].entries, Ptrs(a), [d.ptr]);
    }
    assert Release(s, ds[..k + 1]).queues == Release(Release(s, a), [d]).queues;
  }

  /** The state after the first k of r's descriptors ds are dropped. */
  ghost function DroppedFirst(s: State, r: Pid, ds: seq<Descriptor>, k: nat): State
    requires k <= |ds|
  {
    Put(Release(s, ds[..k]), r, At(s, r).(descriptors := ds[k..]))
  }

  lemma DroppedAll(s: State, r: Pid, ds: seq<Descriptor>)
    ensures DroppedFirst(s, r, ds, |ds|) == Put(Release(s, ds), r, At(s, r).(descriptors := []))
  {
    assert ds[..|ds|] == ds && ds[|ds|..] == [];
  }

  lemma DropNone(s: State, r: Pid, ds: seq<Descriptor>)
    requires r in s.procs && s.procs[r].descriptors == ds
    ensures DroppedFirst(s, r, ds, 0) == s
  {
    ReleaseNone(s, ds);
    assert s.procs[r := s.procs[r]] == s.procs;
  }

  /** Round k takes the descriptor after the first k and releases it. */
  ghost predicate DropRoundOk(s: State, r: Pid, ds: seq<Descriptor>, k: nat)
    requires k < |ds|
  {
    var t := DroppedFirst(s, r, ds, k);
    && At(t, r).descriptors == ds[k..] && r in t.procs && Cur(t) == r
    && EntryAt(t.queues, ds[k]) && DroppedNext(t) == DroppedFirst(s, r, ds, k + 1)
  }

  /** s after the running process's first descriptor is released. */
  ghost function DroppedNext(s: State): State
    requires Me(s).descriptors != []
  {
    var ds := Me(s).descriptors;
    Release(Put(s, Cur(s), Me(s).(descriptors := ds[1..])), [ds[0]])
  }

  ghost predicate Droppable(s: State, r: Pid, ds: seq<Descriptor>) {
    forall k :: 0 <= k < |ds| ==> DropRoundOk(s, r, ds, k)
  }

  lemma DropRound(s: State, r: Pid, ds: seq<Descriptor>, k: nat)
    requires k < |ds| && InPlace(s.queues, ds) && r in s.procs && Cur(s) == r
    ensures DropRoundOk(s, r, ds, k)
  {
    var t := DroppedFirst(s, r, ds, k);
    var u := Put(t, r, At(t, r).(descriptors := ds[k + 1..]));
    ReleaseNext(s, ds, k);
    EntryStays(s, ds[..k], ds[k], t);
    assert ds[k..][0] == ds[k] && ds[k..][1..] == ds[k + 1..];
    assert u.procs == s.procs[r := At(s, r).(descriptors := ds[k + 1..])];
  }

  lemma DropRounds(s: State, r: Pid, ds: seq<Descriptor>)
    requires r in s.procs && Cur(s) == r && InPlace(s.queues, ds)
    ensures Droppable(s, r, ds)
  {
    forall k | 0 <= k < |ds|
      ensures DropRoundOk(s, r, ds, k)
    {
      DropRound(s, r, ds, k);
    }
  }

  lemma EntryStays(s: State, a: seq<Descriptor>, d: Descriptor, t: State)
    requires EntryAt(s.queues, d) && t.queues == Release(s, a).queues && d.ptr !in Ptrs(a)
    ensures EntryAt(t.queues, d)
  { }

  /** The timers that are not p's. */
  ghost function OthersTimers(ts: seq<Timer>, p: Pid): seq<Timer> {
    if ts == [] then [] else (if ts[0].pid == p then [] else [ts[0]]) + OthersTimers(ts[1..], p)
  }

  lemma {:induction false} OthersTimersAppend(a: seq<Timer>, b: seq<Timer>, p: Pid)
    ensures OthersTimers(a + b, p) == OthersTimers(a, p) + OthersTimers(b, p)
  {
    if a == [] {
      assert a + b == b;
    } else {
      assert (a + b)[1..] == a[1..] + b;
      OthersTimersAppend(a[1..], b, p);
      assert (a + b)[0] == a[0];
      assert [a[0]] + (OthersTimers(a[1..], p) + OthersTimers(b, p)) == ([a[0]] + OthersTimers(a[1..], p)) + OthersTimers(b, p);
    }
  }

  /** The timers that are p's. */
  ghost function OwnTimers(ts: seq<Timer>, p: Pid): seq<Timer> {
    if ts == [] then [] else (if ts[0].pid == p then [ts[0]] else []) + OwnTimers(ts[1..], p)
  }

  lemma {:induction false} OwnTimersAppend(a: seq<Timer>, b: seq<Timer>, p: Pid)
    ensures OwnTimers(a + b, p) == OwnTimers(a, p) + OwnTimers(b, p)
  {
    if a == [] {
      assert a + b == b;
    } else {
      assert (a + b)[1..] == a[1..] + b;
      OwnTimersAppend(a[1..], b, p);
      assert [a[0]] + (OwnTimers(a[1..], p) + OwnTimers(b, p)) == ([a[0]] + OwnTimers(a[1..], p)) + OwnTimers(b, p);
    }
  }

  /** One timer more is p's or another's. */
  lemma TimersPrefix(ts: seq<Timer>, k: nat, p: Pid)
    requires k < |ts|
    ensures OthersTimers(ts[..k + 1], p) == OthersTimers(ts[..k], p) + (if ts[k].pid == p then [] else [ts[k]])
    ensures OwnTimers(ts[..k + 1], p) == if ts[k].pid == p then OwnTimers(ts[..k], p) + [ts[k]] else OwnTimers(ts[..k], p)
  {
    assert ts[..k + 1] == ts[..k] + [ts[k]];
    OthersTimersAppend(ts[..k], [ts[k]], p);
    OwnTimersAppend(ts[..k], [ts[k]], p);
    assert [ts[k]][1..] == [];
  }

  lemma OwnBlocksGrow(pool: PoolAllocator.Pool, own: seq<Timer>, t: Timer)
    ensures pool.PutAll(TimerBlocks(own + [t])) == pool.PutAll(TimerBlocks(own)).Put(t.block)
  {
    assert TimerBlocks(own + [t]) == TimerBlocks(own) + [t.block];
    PutAllAppend(pool, TimerBlocks(own), t.block);
  }

  /** After n of the timers in all, ts is left and aux is where the loop stands in it. */
  ghost predicate SoFar(ts: seq<Timer>, aux: nat, all: seq<Timer>, n: nat, p: Pid) {
    aux <= |ts| && n <= |all| && ts[..aux] == OthersTimers(all[..n], p) && ts[aux..] == all[n..]
  }

  ghost function PoolSoFar(pool: PoolAllocator.Pool, all: seq<Timer>, n: nat, p: Pid): PoolAllocator.Pool
    requires n <= |all|
  {
    pool.PutAll(TimerBlocks(OwnTimers(all[..n], p)))
  }

  lemma DropAnother(ts: seq<Timer>, aux: nat, all: seq<Timer>, n: nat, p: Pid)
    requires SoFar(ts, aux, all, n, p) && aux < |ts|
    ensures n < |all| && ts[aux] == all[n]
    ensures if ts[aux].pid == p then SoFar(ts[..aux] + ts[aux + 1..], aux, all, n + 1, p) else SoFar(ts, aux + 1, all, n + 1, p)
  {
    assert ts[aux..][0] == all[n..][0];
    assert ts[aux..][1..] == ts[aux + 1..] && all[n..][1..] == all[n + 1..];
    TimersPrefix(all, n, p);
    if ts[aux].pid == p {
      assert (ts[..aux] + ts[aux + 1..])[aux..] == ts[aux + 1..];
    } else {
      assert ts[..aux + 1] == ts[..aux] + [ts[aux]];
    }
  }

  lemma OneTimerMore(pool: PoolAllocator.Pool, all: seq<Timer>, n: nat, p: Pid)
    requires n < |all|
    ensures PoolSoFar(pool, all, n + 1, p) ==
            if all[n].pid == p then PoolSoFar(pool, all, n, p).Put(all[n].block) else PoolSoFar(pool, all, n, p)
  {
    TimersPrefix(all, n, p);
    OwnBlocksGrow(pool, OwnTimers(all[..n], p), all[n]);
  }

  lemma {:induction false} NoTimersDropped(ts: seq<Timer>, p: Pid)
    requires forall i :: 0 <= i < |ts| ==> ts[i].pid != p
    ensures OthersTimers(ts, p) == ts && OwnTimers(ts, p) == []
  {
    if ts != [] {
      NoTimersDropped(ts[1..], p);
    }
  }

  // ----- control blocks on the three lists

  ghost predicate Disjoint(xs: seq<Pid>, ys: seq<Pid>) {
    forall x :: x in xs ==> x !in ys
  }

  /** A list is not touched by what happens to another one. */
  lemma KeepThreads(l: Links.Links<Pid>, m: Links.Links<Pid>, xs: seq<Pid>, x: Pid, ys: seq<Pid>)
    requires Links.Threads(l, ys) && Links.SameOutside(l, m, xs, x)
    ensures Disjoint(ys, xs) && x !in ys ==> Links.Threads(m, ys)
  {
    if Disjoint(ys, xs) && x !in ys {
      forall i | 0 <= i < |ys|
        ensures Links.Tied(m, ys, i)
      {
        assert Links.Tied(l, ys, i) && ys[i] in ys;
      }
    }
  }

  /** l threads the three lists, nobody is on two of them, and a block on none of them carries no link. */
  ghost predicate ThreeLists(l: Links.Links<Pid>, xs: seq<Pid>, ys: seq<Pid>, zs: seq<Pid>) {
    && Links.Threads(l, xs) && Links.Threads(l, ys) && Links.Threads(l, zs)
    && Disjoint(xs, ys) && Disjoint(xs, zs) && Disjoint(ys, zs)
    && forall p {:trigger Links.Carries(l, p)} :: p !in xs && p !in ys && p !in zs ==> !Links.Carries(l, p)
  }

  /** Inserting into one of them. */
  lemma TieOne(l: Links.Links<Pid>, xs: seq<Pid>, ys: seq<Pid>, zs: seq<Pid>, prev: Option<Pid>, p: Pid)
    requires ThreeLists(l, xs, ys, zs) && p !in xs && p !in ys && p !in zs && (prev.Some? ==> prev.value in xs)
    ensures var m, us := Links.Tie(l, Links.First(xs), prev, p), InsertedBehind(xs, prev, p);
      ThreeLists(m, us, ys, zs) && ThreeLists(m, ys, us, zs) && ThreeLists(m, ys, zs, us)
  {
    var k := if prev.None? then 0 else Position(xs, prev.value) + 1;
    var m, us := Links.Tie(l, Links.First(xs), prev, p), InsertedBehind(xs, prev, p);
    assert Links.Last(xs[..k]) == prev && us == xs[..k] + [p] + xs[k..];
    Links.TieThreads(l, xs, k, p);
    InsertedMembers(xs, k, p);
    KeepThreads(l, m, xs, p, ys);
    KeepThreads(l, m, xs, p, zs);
    StillNone(l, m, xs, p);
  }

  lemma InsertedMembers(xs: seq<Pid>, k: nat, p: Pid)
    requires k <= |xs|
    ensures forall x :: x in xs[..k] + [p] + xs[k..] <==> x == p || x in xs
  {
    assert xs == xs[..k] + xs[k..];
    forall x
      ensures x in xs <==> x in xs[..k] || x in xs[k..]
    { }
  }

  /** Detaching from one of them. */
  lemma UntieOne(l: Links.Links<Pid>, xs: seq<Pid>, ys: seq<Pid>, zs: seq<Pid>, p: Pid)
    requires ThreeLists(l, xs, ys, zs) && p in xs
    ensures var m, us := Links.Untie(l, p), Without(xs, [p]);
      ThreeLists(m, us, ys, zs) && ThreeLists(m, ys, us, zs) && ThreeLists(m, ys, zs, us)
  {
    var k, m := Position(xs, p), Links.Untie(l, p);
    Links.UntieThreads(l, xs, k);
    Links.WithoutAt(xs, k);
    KeepThreads(l, m, xs, p, ys);
    KeepThreads(l, m, xs, p, zs);
    StillNone(l, m, xs, p);
  }

  lemma StillNone(l: Links.Links<Pid>, m: Links.Links<Pid>, xs: seq<Pid>, x: Pid)
    requires Links.SameOutside(l, m, xs, x)
    ensures forall p :: p !in xs && p != x && !Links.Carries(l, p) ==> !Links.Carries(m, p)
  {
    forall p | p !in xs && p != x && !Links.Carries(l, p)
      ensures !Links.Carries(m, p)
    {
      assert Links.At(m.next, p) == Links.At(l.next, p);
    }
  }

  /** Behind the last member is the end. */
  lemma LastPosition(list: seq<Pid>, p: Pid)
    requires NoDup(list)
    ensures InsertedBehind(list, Links.Last(list), p) == list + [p]
  {
    if list != [] {
      assert Position(list, list[|list| - 1]) == |list| - 1;
    }
  }

  function Position(list: seq<Pid>, x: Pid): (k: nat)
    requires x in list
    ensures k < |list| && list[k] == x && forall i :: 0 <= i < k ==> list[i] != x
  {
    if list[0] == x then 0 else 1 + Position(list[1..], x)
  }

  /** list with p put in front, or right behind prev. */
  function InsertedBehind(list: seq<Pid>, prev: Option<Pid>, p: Pid): seq<Pid>
    requires prev.Some? ==> prev.value in list
  {
    if prev.None? then [p] + list
    else var k := Position(list, prev.value) + 1; list[..k] + [p] + list[k..]
  }

  // ----- the blocks of the queues

  function BlocksOf(l: seq<MessageQueue>): (bs: seq<int>)
    ensures |bs| == |l| && forall i :: 0 <= i < |l| ==> bs[i] == l[i].body.block
  {
    seq(|l|, i requires 0 <= i < |l| => l[i].body.block)
  }

  lemma BlocksWithout(l: seq<MessageQueue>, i: nat)
    requires i < |l|
    ensures BlocksOf(l[..i] + l[i + 1..]) == BlocksOf(l)[..i] + BlocksOf(l)[i + 1..]
  { }

  // ----- what the calls need of the state they find

  /** The running process is alive and on no list, and the one to run next is alive. */
  ghost predicate Steady(s: State) {
    && s.running.Some? && Cur(s) in s.procs
    && Cur(s) !in s.ready && Cur(s) !in s.waiting && Cur(s) !in s.zombie
    && (s.ready != [] ==> s.ready[0] in s.procs)
  }

  ghost predicate CanSchedule(s: State) {
    CanWake(s) && Steady(WakeSleepers(s))
  }

  ghost predicate CanWake(s: State) {
    forall k {:trigger RoundOk(s, k)} :: 0 <= k < Due(s.timers, s.time) ==> RoundOk(s, k)
  }

  ghost predicate CanWait(s: State) {
    && Cur(s) !in Me(s).children
    && forall c :: c in Me(s).children ==> c in s.procs && (s.procs[c].status == Zombie ==> c in s.zombie)
  }

  ghost predicate CanExit(s: State) {
    && INIT in s.procs && Cur(s) != INIT && Me(s).parent.Some? && Me(s).parent.value in s.procs && Me(s).parent.value != Cur(s)
    && HandlesInPlace(s)
    && (AwaitsExitOf(s, Me(s).parent.value, Cur(s)) ==>
          Me(s).parent.value in s.waiting && Cur(s) in At(s, Me(s).parent.value).children)
    && (forall i :: 0 <= i < |s.timers| ==> s.timers[i].pid != Cur(s))
  }

  ghost predicate HandlesInPlace(s: State) {
    InPlace(s.queues, Me(s).descriptors)
  }

  /** A create finds a block, and it carries no link. */
  ghost predicate CanOpen(s: State, id: int, mode: int) {
    && (s.descPool.free != [] ==> s.ptrPool.free != [])
    && (mode == DSOS_CREATE && id !in s.queues ==>
          s.mqs.pool.free != [] && !Links.Carries(s.mqs.links, s.mqs.pool.free[0]))
  }

  ghost predicate Prepared(s: State, c: Call) {
    && Steady(s) && (TakesNext(s, c) ==> s.ready != [])
    && match c
       case Preempt => CanSchedule(s)
       case Fork => s.lastPid !in s.procs && s.lastPid !in s.ready && s.lastPid !in s.waiting && s.lastPid !in s.zombie
       case Wait(_, _) => CanWait(s)
       case Exit(_) => CanExit(s)
       case Open(id, mode) => CanOpen(s, id, mode)
       case Close(_) => HandlesInPlace(s)
       case Destroy(_) => NoDup(s.mqs.list)
       case Write(id, _) => id in s.queues ==> Wakeable(s, s.queues[id].readers)
       case Read(id, _) => id in s.queues && Wakeable(s, s.queues[id].writers)
       case _ => true
  }

  lemma InvIsSteady(s: State)
    requires Places(s) && s.running.Some?
    ensures Steady(s)
  { }

  lemma InvCanSchedule(s: State)
    requires Places(s) && Sleepers(s) && s.running.Some?
    ensures CanSchedule(s)
  {
    WakeRounds(s);
    WakeSleepersPlaces(s);
    InvIsSteady(WakeSleepers(s));
  }

  lemma InvHandlesInPlace(s: State)
    requires Handles(s) && Cur(s) in s.procs
    ensures HandlesInPlace(s)
  {
    var ds := Me(s).descriptors;
    forall i, j | 0 <= i < j < |ds|
      ensures ds[i].ptr != ds[j].ptr
    {
      assert Holds(s, Cur(s), ds[i]) && Holds(s, Cur(s), ds[j]);
      assert FdsGrow(ds, Me(s).lastFd);
    }
    forall d | d in ds
      ensures EntryAt(s.queues, d)
    {
      assert Holds(s, Cur(s), d);
      assert Entry(s, d.mq, DescriptorPtr(d.ptr, d.block));
      assert forall id, e :: Entry(s, id, e) && e.block == d.ptr ==> id == d.mq;
      assert forall id, e :: id in s.queues && e in s.queues[id].entries ==> Entry(s, id, e);
    }
  }

  lemma InvCanExit(s: State)
    requires Inv(s) && s.running.Some? && Me(s).parent.Some? && Me(s).parent.value in s.procs
    ensures CanExit(s)
  {
    Frames.HeadAlive(s);
    Processes.ParentIsOther(s);
    assert Invariants.Listed(s, Cur(s));
    InvHandlesInPlace(s);
    Processes.RunnerTimerless(s);
  }

  lemma InvCanFork(s: State)
    requires Places(s)
    ensures s.lastPid !in s.procs && s.lastPid !in s.ready && s.lastPid !in s.waiting && s.lastPid !in s.zombie
  { }

  lemma InvCanWait(s: State)
    requires Places(s) && Family(s) && Cur(s) in s.procs
    ensures CanWait(s)
  {
    forall c | c in Me(s).children
      ensures c in s.procs && c != Cur(s)
    {
      assert Kid(s, Cur(s), c);
    }
  }

  lemma InvCanOpen(s: State, id: int, mode: int)
    requires QueuesOk(s) && Handles(s) && Provided(s, Open(id, mode))
    ensures CanOpen(s, id, mode)
  {
    if mode == DSOS_CREATE && id !in s.queues {
      QueueCalls.NextIsUnlinked(s);
    }
  }

  lemma InvWakeable(s: State, id: int)
    requires Places(s) && QueuesOk(s) && id in s.queues
    ensures Wakeable(s, s.queues[id].readers) && Wakeable(s, s.queues[id].writers)
  {
    assert QueueOk(s, id, s.queues[id]);
    BlockedWakeable(s, s.queues[id].readers);
    BlockedWakeable(s, s.queues[id].writers);
  }

  /** In every state with the invariant every call finds what it needs. In particular no control block and no queue block that
      it inserts into a list carries a link, so no insertion is refused, and what it detaches is on the list. */
  lemma InvPrepares(s: State, c: Call)
    requires Inv(s) && s.running.Some? && Provided(s, c) && (TakesNext(s, c) ==> s.ready != [])
    ensures Prepared(s, c)
  {
    InvIsSteady(s);
    match c
    case Preempt => InvCanSchedule(s);
    case Fork => InvCanFork(s);
    case Wait(_, _) => InvCanWait(s);
    case Exit(_) => InvCanExit(s);
    case Open(id, mode) => InvCanOpen(s, id, mode);
    case Close(_) => InvHandlesInPlace(s);
    case Write(id, _) =>
      if id in s.queues {
        InvWakeable(s, id);
      }
    case Read(id, _) => InvWakeable(s, id);
    case _ =>
  }

  /** A buffer before and after a message, if any, is copied to its start. */
  predicate Filled(before: seq<byte>, after: seq<byte>, m: Option<Message>) {
    match m
    case None => after == before
    case Some(m) => |m| <= |before| && after == m + before[|m|..]
  }

  lemma ClockPrepared(s: State)
    requires Inv(s) && s.running.Some?
    ensures CanSchedule(Clock(s))
  {
    Scheduling.ClockKeeps(s);
    InvCanSchedule(Clock(s));
  }

  lemma TrapPrepared(s: State, c: Call)
    requires Inv(s) && Defined(s, Event.Trap(c))
    ensures Prepared(Enter(s, c), c) && Cur(s) in s.procs
  {
    Frames.HeadAlive(s);
    Frames.EnterKeeps(s, c);
    EnterReady(s, c);
    InvPrepares(Enter(s, c), c);
  }

  lemma EnterReady(s: State, c: Call)
    requires Inv(s) && Defined(s, Event.Trap(c))
    ensures Provided(Enter(s, c), c) && (TakesNext(Enter(s, c), c) ==> s.ready != [])
  {
    Frames.HeadAlive(s);
    if c.Wait? && Me(s).children != [] {
      Processes.SameScan(s, Enter(s, c), Me(s).children, c.pid);
    }
  }

  // ----- the rounds of the wake loop

  /** The state after the first k due sleepers are woken. */
  ghost function WakeFirst(s: State, k: nat): State
    requires k <= |s.timers|
  {
    var ps := TimerPids(s.timers[..k]);
    s.(timers := s.timers[k..],
       timerPool := s.timerPool.PutAll(TimerBlocks(s.timers[..k])),
       waiting := Without(s.waiting, ps),
       ready := ps + s.ready,
       procs := Readied(s.procs, ps))
  }

  lemma WakeNone(s: State)
    ensures WakeFirst(s, 0) == s
  {
    WithoutNothing(s.waiting, []);
    assert TimerPids(s.timers[..0]) == [] && TimerBlocks(s.timers[..0]) == [];
    assert Readied(s.procs, []) == s.procs;
  }

  lemma {:induction false} PutAllAppend(p: PoolAllocator.Pool, a: seq<int>, b: int)
    ensures p.PutAll(a + [b]) == p.PutAll(a).Put(b)
    decreases |a|
  {
    if a == [] {
      assert a + [b] == [b];
      assert [b][1..] == [];
    } else {
      assert (a + [b])[1..] == a[1..] + [b];
      PutAllAppend(p.Put(a[0]), a[1..], b);
    }
  }

  lemma ReadiedAppend(procs: map<Pid, Pcb>, ps: seq<Pid>, p: Pid)
    requires p in procs && p !in ps
    ensures Readied(procs, ps + [p]) == Readied(procs, ps)[p := Readied(procs, ps)[p].(status := Ready, hasTimer := false)]
  { }

  lemma TakeOneMore(s: State, k: nat)
    requires k < |s.timers|
    ensures TimerPids(s.timers[..k + 1]) == TimerPids(s.timers[..k]) + [s.timers[k].pid]
    ensures TimerBlocks(s.timers[..k + 1]) == TimerBlocks(s.timers[..k]) + [s.timers[k].block]
  { }

  /** Who is where when the next sleeper is to be woken: it is on the waiting list, and the one woken before it is the k-th in the
      ready list. */
  lemma WakeNextLists(s: State, k: nat)
    requires Places(s) && Sleepers(s) && k < Due(s.timers, s.time)
    ensures var t, p := WakeFirst(s, k), s.timers[k].pid;
      && p in t.procs && p !in TimerPids(s.timers[..k]) && p in t.waiting
      && NoDup(t.ready) && k <= |t.ready| && (k > 0 ==> t.ready[k - 1] == s.timers[k - 1].pid)
  {
    var ps := TimerPids(s.timers[..k]);
    Frames.ReadyNotWaiting(s);
    assert NoDup(ps);
    NoDupAppend(ps, s.ready);
  }

  /** s after the process of the first timer is woken and put behind previous. */
  function Awoken(s: State, previous: Option<Pid>): State
    requires s.timers != [] && (previous.Some? ==> previous.value in s.ready)
  {
    var p := s.timers[0].pid;
    Put(s, p, At(s, p).(status := Ready, hasTimer := false))
      .(timers := s.timers[1..], timerPool := s.timerPool.Put(s.timers[0].block), waiting := Without(s.waiting, [p]),
        ready := InsertedBehind(s.ready, previous, p))
  }

  function PreviousOf(s: State, k: nat): Option<Pid>
    requires k <= |s.timers|
  {
    if k == 0 then None else Some(s.timers[k - 1].pid)
  }

  /** Round k finds its process waiting and makes of the state after k wakings the one after k + 1. */
  ghost predicate RoundOk(s: State, k: nat)
    requires k < |s.timers|
  {
    var t, p := WakeFirst(s, k), s.timers[k].pid;
    && t.timers[0] == s.timers[k] && p in t.procs && p in t.waiting
    && (PreviousOf(s, k).Some? ==> PreviousOf(s, k).value in t.ready)
    && WakeFirst(s, k + 1) == Awoken(t, PreviousOf(s, k))
  }

  lemma WakeNext(s: State, k: nat)
    requires Places(s) && Sleepers(s) && k < Due(s.timers, s.time)
    ensures RoundOk(s, k)
  {
    var ps := TimerPids(s.timers[..k]);
    TakeOneMore(s, k);
    WakeNextLists(s, k);
    WithoutTwice(s.waiting, ps, [s.timers[k].pid]);
    PutAllAppend(s.timerPool, TimerBlocks(s.timers[..k]), s.timers[k].block);
    ReadiedAppend(s.procs, ps, s.timers[k].pid);
    BehindTheLast(ps, s.ready, s.timers[k].pid);
  }

  lemma BehindTheLast(ps: seq<Pid>, rest: seq<Pid>, p: Pid)
    requires NoDup(ps + rest)
    ensures ps == [] ==> InsertedBehind(ps + rest, None, p) == ps + [p] + rest
    ensures ps != [] ==> ps[|ps| - 1] in ps + rest && InsertedBehind(ps + rest, Some(ps[|ps| - 1]), p) == ps + [p] + rest
  {
    if ps != [] {
      assert (ps + rest)[|ps| - 1] == ps[|ps| - 1];
      assert Position(ps + rest, ps[|ps| - 1]) == |ps| - 1;
    }
  }

  lemma WakeRounds(s: State)
    requires Places(s) && Sleepers(s)
    ensures forall k :: 0 <= k < Due(s.timers, s.time) ==> RoundOk(s, k)
  {
    forall k | 0 <= k < Due(s.timers, s.time)
      ensures RoundOk(s, k)
    {
      WakeNext(s, k);
    }
  }

  lemma WakeSleepersPlaces(s: State)
    requires Places(s) && Sleepers(s)
    ensures Places(WakeSleepers(s))
  {
    Scheduling.DueTimers(s);
    Scheduling.WakeSleepersWoken(s);
    Scheduling.WokenPlaces(s, WakeSleepers(s), TimerPids(s.timers[..Due(s.timers, s.time)]));
  }
}
