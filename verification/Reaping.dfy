/** Every process that disappears is reported to a parent once, with the value it exited with. */
module Reaping {
  import opened Lists
  import opened Machine
  import opened Invariants
  import Frames
  import Processes
  import Runs
  import opened Exits

  /** What a call of wait delivers: to whom, the pid it returns, and the value found in the cell if there is one. */
  datatype Report = Report(parent: Pid, child: int, value: Option<int>)

  function CellOf(s: State, p: Pid): Option<int> {
    if At(s, p).call.Some? && At(s, p).call.value.Wait? && At(s, p).call.value.hasCell then Some(At(s, p).cell) else None
  }

  /** The wait that returns in step e, seen from its caller: its own, or the one a process was blocked in that now runs. */
  function ReportOf(s: State, e: Event): Option<Report> {
    var t := Step(s, e);
    if (e.Trap? && e.call.Wait? && t.running == s.running && Me(t).ret >= 0) ||
       (e.Trap? && e.call.Exit? && t.running.Some? && InWaitCall(s, Cur(t)))
    then Some(Report(Cur(t), Me(t).ret, CellOf(t, Cur(t))))
    else None
  }

  function Made(s: State, e: Event): (rs: seq<Report>)
    ensures |rs| <= 1
  {
    match ReportOf(s, e)
    case Some(r) => [r]
    case None => []
  }

  function Reports(s: State, es: seq<Event>): seq<Report>
    decreases |es|
  {
    if es == [] then [] else Made(s, es[0]) + Reports(Step(s, es[0]), es[1..])
  }

  // ----- one step

  /** What a call of wait comes to: it fails for want of children, or reaps the child its scan ends on, or blocks. */
  lemma WaitOutcome(s: State, pid: int, hasCell: bool)
    requires Inv(s) && s.running.Some? && (TakesNext(s, Wait(pid, hasCell)) ==> s.ready != [])
    ensures var t := DoWait(s, pid, hasCell);
      if Me(s).children == [] then t.running == s.running && Me(t).ret == DSOS_EWAIT && t.procs.Keys == s.procs.Keys
      else
        var c := Scan(s, Me(s).children, pid);
        && Kid(s, Cur(s), c)
        && if IsZombie(s, c) then
             t.running == s.running && Me(t).ret == c && (hasCell ==> Me(t).cell == s.procs[c].exitValue) && Me(t).call == Me(s).call
             && t.procs.Keys == s.procs.Keys - {c}
           else t.running != s.running && t.procs.Keys == s.procs.Keys
  {
    RunnerActive(s);
    if Me(s).children != [] {
      var c := Scan(s, Me(s).children, pid);
      Processes.ScanFinds(s, Me(s).children, pid);
      assert Kid(s, Cur(s), c);
      if IsZombie(s, c) {
        Processes.ReapPlaces(s, c, hasCell);
        ReapReturns(s, c, hasCell);
      } else {
        ReadyKnown(s);
        DispatchLeaves(Suspend(s), false, Cur(s));
      }
    }
  }

  lemma ReapReturns(s: State, c: Pid, hasCell: bool)
    requires c != Cur(s)
    ensures var t := Reap(s, c, hasCell);
      t.running == s.running && Me(t).ret == c && (hasCell ==> Me(t).cell == At(s, c).exitValue) && Me(t).call == Me(s).call
  { }

  lemma ReadyKnown(s: State)
    requires Places(s)
    ensures forall p :: p in s.ready ==> p in s.procs
    ensures s.running.Some? ==> Cur(s) !in s.ready && Cur(s) in s.procs
  { }

  /** What a wait reports: the child its scan ends on, if that one has exited. */
  function WaitReport(s: State, pid: int, hasCell: bool): Option<Report> {
    var kids := Me(s).children;
    if kids == [] || At(s, Scan(s, kids, pid)).status != Zombie then None
    else Some(Report(Cur(s), Scan(s, kids, pid), if hasCell then Some(At(s, Scan(s, kids, pid)).exitValue) else None))
  }

  lemma WaitReportIs(s: State, pid: int, hasCell: bool)
    requires Inv(s) && Defined(s, Trap(Wait(pid, hasCell)))
    ensures var e, t := Trap(Wait(pid, hasCell)), Step(s, Trap(Wait(pid, hasCell)));
      && ReportOf(s, e) == WaitReport(s, pid, hasCell)
      && t.procs.Keys == s.procs.Keys - (if ReportOf(s, e).Some? then {ReportOf(s, e).value.child} else {})
  {
    var u := Enter(s, Wait(pid, hasCell));
    EnterWait(s, pid, hasCell);
    EnteredWaitOutcome(s, pid, hasCell);
    EnterChildren(s, Wait(pid, hasCell));
    if Me(s).children != [] {
      Processes.SameScan(s, u, Me(s).children, pid);
    }
    OutcomeReported(s, u, DoWait(u, pid, hasCell), pid, hasCell);
  }

  /** The outcome of a wait read as a report. */
  lemma OutcomeReported(s: State, u: State, t: State, pid: int, hasCell: bool)
    requires t == Step(s, Trap(Wait(pid, hasCell))) && s.running.Some? && u.running == s.running && u.procs.Keys == s.procs.Keys
    requires Me(u).call == Some(Wait(pid, hasCell)) && Me(u).children == Me(s).children
    requires if Me(s).children == [] then t.running == u.running && Me(t).ret == DSOS_EWAIT && t.procs.Keys == u.procs.Keys
             else
               var c := Scan(s, Me(s).children, pid);
               if IsZombie(s, c) then
                 t.running == u.running && Me(t).ret == c && (hasCell ==> Me(t).cell == s.procs[c].exitValue) && Me(t).call == Me(u).call
                 && t.procs.Keys == u.procs.Keys - {c}
               else t.running != u.running && t.procs.Keys == u.procs.Keys && At(s, c).status != Zombie
    ensures ReportOf(s, Trap(Wait(pid, hasCell))) == WaitReport(s, pid, hasCell)
    ensures t.procs.Keys == s.procs.Keys - (if WaitReport(s, pid, hasCell).Some? then {WaitReport(s, pid, hasCell).value.child} else {})
  { }

  /** Wait returns a child that has exited, its exit value, and takes it off every list; or nobody disappears. */
  lemma WaitReports(s: State, pid: int, hasCell: bool)
    requires Inv(s) && Defined(s, Trap(Wait(pid, hasCell)))
    ensures var e, t := Trap(Wait(pid, hasCell)), Step(s, Trap(Wait(pid, hasCell)));
      match ReportOf(s, e)
      case None => t.procs.Keys == s.procs.Keys
      case Some(r) =>
        && r.parent == Cur(s) && r.child >= 0 && Kid(s, Cur(s), r.child) && IsZombie(s, r.child)
        && r.value == (if hasCell then Some(s.procs[r.child].exitValue) else None)
        && t.procs.Keys == s.procs.Keys - {r.child}
  {
    WaitReportIs(s, pid, hasCell);
    ScannedIsKid(s, pid);
  }

  lemma ScannedIsKid(s: State, pid: int)
    requires Places(s) && Family(s) && s.running.Some?
    ensures Me(s).children != [] ==> var c := Scan(s, Me(s).children, pid); Kid(s, Cur(s), c) && c in s.procs
  {
    RunnerActive(s);
    if Me(s).children != [] {
      Processes.ScanFinds(s, Me(s).children, pid);
      assert Kid(s, Cur(s), Scan(s, Me(s).children, pid));
    }
  }

  lemma EnteredWaitOutcome(s: State, pid: int, hasCell: bool)
    requires Inv(s) && Defined(s, Trap(Wait(pid, hasCell)))
    ensures var u := Enter(s, Wait(pid, hasCell)); var t := DoWait(u, pid, hasCell);
      if Me(u).children == [] then t.running == u.running && Me(t).ret == DSOS_EWAIT && t.procs.Keys == u.procs.Keys
      else
        var c := Scan(u, Me(u).children, pid);
        && Kid(u, Cur(u), c)
        && if IsZombie(u, c) then
             t.running == u.running && Me(t).ret == c && (hasCell ==> Me(t).cell == u.procs[c].exitValue) && Me(t).call == Me(u).call
             && t.procs.Keys == u.procs.Keys - {c}
           else t.running != u.running && t.procs.Keys == u.procs.Keys
  {
    Frames.EnterKeeps(s, Wait(pid, hasCell));
    EnterWait(s, pid, hasCell);
    WaitOutcome(Enter(s, Wait(pid, hasCell)), pid, hasCell);
  }

  lemma EnterWait(s: State, pid: int, hasCell: bool)
    requires Places(s) && Defined(s, Trap(Wait(pid, hasCell)))
    ensures var u := Enter(s, Wait(pid, hasCell));
      && u.running == s.running && u.procs.Keys == s.procs.Keys && Me(u).call == Some(Wait(pid, hasCell))
      && (TakesNext(u, Wait(pid, hasCell)) ==> u.ready != [])
      && (forall p: Pid, k: Pid :: Kid(u, p, k) <==> Kid(s, p, k))
      && (forall k: Pid :: IsZombie(u, k) <==> IsZombie(s, k))
      && (forall k: Pid :: At(u, k).exitValue == At(s, k).exitValue)
  {
    RunnerActive(s);
    var u := Enter(s, Wait(pid, hasCell));
    assert forall k: Pid :: At(u, k).status == At(s, k).status;
    if Me(s).children != [] {
      Processes.SameScan(s, u, Me(s).children, pid);
    }
  }

  lemma DispatchLeaves(s: State, mark: bool, r: Pid)
    requires s.ready != [] && r !in s.ready
    requires forall p :: p in s.ready ==> p in s.procs
    ensures Dispatch(s, mark).running != Some(r) && Dispatch(s, mark).procs.Keys == s.procs.Keys
  { }

  /** What an exit comes to: the parent blocked in a wait for it runs and gets pid and value, or the process is a zombie. */
  lemma ExitOutcome(s: State, value: int)
    requires Inv(s) && s.running.Some? && Provided(s, Exit(value)) && (TakesNext(s, Exit(value)) ==> s.ready != [])
    ensures var p, t := ParentOf(s, Cur(s)), DoExit(s, value);
      if AwaitsExitOf(s, p, Cur(s)) then
        && Kid(s, p, Cur(s)) && t.running == Some(p) && Me(t).ret == Cur(s) && Me(t).call == At(s, p).call
        && (At(s, p).call.value.hasCell ==> Me(t).cell == value)
        && t.procs.Keys == s.procs.Keys - {Cur(s)}
      else
        && t.running.Some? && Cur(t) in s.ready && t.procs.Keys == s.procs.Keys
        && IsZombie(t, Cur(s)) && At(t, Cur(s)).exitValue == value
  {
    RunnerActive(s);
    Processes.ParentIsOther(s);
    var p := ParentOf(s, Cur(s));
    if AwaitsExitOf(s, p, Cur(s)) {
      DeliverFacts(s, value, p);
      ExitKeys(s, value);
    } else {
      BuryFacts(s, value);
      DepartRest(s, value);
      DispatchRunsReady(Bury(Depart(s, value)));
    }
  }

  lemma ReadyIsNotInWait(s: State)
    requires Places(s)
    ensures forall p :: p in s.ready ==> !InWaitCall(s, p)
  { }

  /** An exit reports to the parent that was blocked in a wait for it, or to nobody. */
  lemma ExitReports(s: State, value: int)
    requires Inv(s) && Defined(s, Trap(Exit(value)))
    ensures var e, t := Trap(Exit(value)), Step(s, Trap(Exit(value)));
      match ReportOf(s, e)
      case None => t.procs.Keys == s.procs.Keys && IsZombie(t, Cur(s)) && At(t, Cur(s)).exitValue == value
      case Some(r) =>
        && r.child == Cur(s) && Kid(s, r.parent, Cur(s)) && r.parent == ParentOf(s, Cur(s))
        && (r.value.Some? ==> r.value == Some(value))
        && t.procs.Keys == s.procs.Keys - {Cur(s)}
  {
    ReadyIsNotInWait(s);
    EnterExit(s, value);
    EnteredExitOutcome(s, value);
    ExitReportIs(s, value, Step(s, Trap(Exit(value))));
  }

  lemma ExitReportIs(s: State, value: int, t: State)
    requires s.running.Some? && t == Step(s, Trap(Exit(value))) && t.running.Some?
    requires InWaitCall(s, Cur(t)) ==> Me(t).call == At(s, Cur(t)).call && At(s, Cur(t)).call.Some?
    ensures ReportOf(s, Trap(Exit(value))) ==
              if InWaitCall(s, Cur(t)) then Some(Report(Cur(t), Me(t).ret, CellOf(t, Cur(t)))) else None
  { }

  lemma EnteredExitOutcome(s: State, value: int)
    requires Inv(s) && Defined(s, Trap(Exit(value)))
    ensures var u := Enter(s, Exit(value)); var p, t := ParentOf(u, Cur(u)), DoExit(u, value);
      if AwaitsExitOf(u, p, Cur(u)) then
        && Kid(u, p, Cur(u)) && t.running == Some(p) && Me(t).ret == Cur(u) && Me(t).call == At(u, p).call
        && (At(u, p).call.value.hasCell ==> Me(t).cell == value)
        && t.procs.Keys == u.procs.Keys - {Cur(u)}
      else
        && t.running.Some? && Cur(t) in u.ready && t.procs.Keys == u.procs.Keys
        && IsZombie(t, Cur(u)) && At(t, Cur(u)).exitValue == value
  {
    Frames.EnterKeeps(s, Exit(value));
    EnterExit(s, value);
    ExitOutcome(Enter(s, Exit(value)), value);
  }

  lemma EnterExit(s: State, value: int)
    requires Places(s) && Defined(s, Trap(Exit(value)))
    ensures var u := Enter(s, Exit(value));
      && u.running == s.running && u.ready == s.ready && u.procs.Keys == s.procs.Keys
      && Provided(u, Exit(value)) && (TakesNext(u, Exit(value)) ==> u.ready != [])
      && ParentOf(u, Cur(s)) == ParentOf(s, Cur(s))
      && (AwaitsExitOf(u, ParentOf(s, Cur(s)), Cur(s)) ==> InWaitCall(s, ParentOf(s, Cur(s))))
      && (forall p: Pid, k: Pid :: Kid(u, p, k) <==> Kid(s, p, k))
  { }

  lemma ExitKeys(s: State, value: int)
    requires Cur(s) != INIT && Cur(s) in s.procs && INIT in s.procs && ParentOf(s, Cur(s)) in s.procs
    ensures Deliver(Depart(s, value), ParentOf(s, Cur(s))).procs.Keys == s.procs.Keys - {Cur(s)}
  { }

  lemma DispatchRunsReady(s: State)
    requires s.ready != []
    ensures Dispatch(s, true).running == Some(s.ready[0])
  { }

  /** What a step does to the pids: those gone stay gone, exited processes stay as they are until they go, and only an exit
      makes a zombie. */
  ghost predicate PidsMove(s: State, e: Event, t: State) {
    && t.lastPid >= s.lastPid
    && (forall c: Pid :: c < s.lastPid && c !in s.procs ==> c !in t.procs)
    && (forall c: Pid :: IsZombie(s, c) && c in t.procs ==> IsZombie(t, c))
    && (forall c: Pid :: IsZombie(t, c) && !(e.Trap? && e.call.Exit? && c == Cur(s)) ==>
          IsZombie(s, c) && t.procs[c].exitValue == s.procs[c].exitValue)
  }

  lemma ForkPids(s: State)
    requires Places(s) && s.running.Some?
    ensures PidsMove(s, Trap(Fork), DoFork(s)) && DoFork(s).procs.Keys == s.procs.Keys + {s.lastPid}
  { }

  lemma ReapPids(s: State, c: Pid, hasCell: bool, e: Event)
    requires Cur(s) in s.procs && !IsZombie(s, Cur(s)) && c != Cur(s)
    ensures PidsMove(s, e, Reap(s, c, hasCell))
  { }

  lemma BlockPids(s: State, e: Event)
    requires Cur(s) in s.procs && !IsZombie(s, Cur(s)) && (s.ready != [] ==> !Dead(s, s.ready[0]))
    ensures PidsMove(s, e, Dispatch(Suspend(s), false))
  { }

  lemma WaitPids(s: State, pid: int, hasCell: bool, e: Event)
    requires Inv(s) && s.running.Some?
    ensures PidsMove(s, e, DoWait(s, pid, hasCell))
  {
    RunnerActive(s);
    if Me(s).children == [] {
      ReturnUnrelated(s, DSOS_EWAIT);
    } else {
      var c := Scan(s, Me(s).children, pid);
      Processes.ScanFinds(s, Me(s).children, pid);
      assert Kid(s, Cur(s), c);
      if At(s, c).status == Zombie {
        ReapPids(s, c, hasCell, e);
      } else {
        BlockPids(s, e);
      }
    }
  }

  lemma ExitPids(s: State, value: int)
    requires Inv(s) && s.running.Some? && Me(s).parent.Some? && Me(s).parent.value in s.procs
    ensures PidsMove(s, Trap(Exit(value)), DoExit(s, value))
  {
    RunnerActive(s);
    Processes.ParentIsOther(s);
    if AwaitsExitOf(s, ParentOf(s, Cur(s)), Cur(s)) {
      DeliverFacts(s, value, ParentOf(s, Cur(s)));
    } else {
      BuryFacts(s, value);
    }
    DepartedPids(s, value, DoExit(s, value));
  }

  lemma DepartedPids(s: State, value: int, t: State)
    requires Departed(s, t) && Cur(s) in s.procs
    requires forall k: Pid :: IsZombie(t, k) ==> IsZombie(s, k) || k == Cur(s)
    requires forall k: Pid :: IsZombie(s, k) && k in t.procs ==> IsZombie(t, k)
    ensures PidsMove(s, Trap(Exit(value)), t)
  { }

  lemma PidsMoveAfter(s: State, u: State, e: Event, t: State)
    requires Unrelated(s, u) && u.running == s.running && PidsMove(u, e, t)
    ensures PidsMove(s, e, t)
  { }

  lemma StepPids(s: State, e: Event)
    requires Inv(s) && Defined(s, e)
    ensures PidsMove(s, e, Step(s, e))
  {
    if !Related(e) {
      StepUnrelated(s, e);
    } else {
      var u := Enter(s, e.call);
      Frames.EnterKeeps(s, e.call);
      EnterUnrelated(s, e.call);
      RelatedPids(u, e.call);
      PidsMoveAfter(s, u, e, Step(s, e));
    }
  }

  lemma RelatedPids(s: State, c: Call)
    requires Inv(s) && s.running.Some? && Provided(s, c) && (c.Fork? || c.Wait? || c.Exit?)
    ensures PidsMove(s, Trap(c), Perform(s, c))
  {
    match c
    case Fork => ForkPids(s);
    case Wait(pid, hasCell) => WaitPids(s, pid, hasCell, Trap(c));
    case Exit(value) => ExitPids(s, value);
  }

  // ----- whole runs

  predicate Gone(s: State, c: int) {
    c < s.lastPid && (c < 0 || c !in s.procs)
  }

  /** What is reported in a step was there before and is gone afterwards. */
  lemma ReportedGoes(s: State, e: Event)
    requires Inv(s) && Defined(s, e) && ReportOf(s, e).Some?
    ensures var c := ReportOf(s, e).value.child; !Gone(s, c) && Gone(Step(s, e), c)
  {
    StepPids(s, e);
    if e.call.Wait? {
      WaitReports(s, e.call.pid, e.call.hasCell);
    } else {
      ExitReports(s, e.call.value);
    }
  }

  ghost predicate NoReportOf(rs: seq<Report>, c: int) {
    forall i :: 0 <= i < |rs| ==> rs[i].child != c
  }

  ghost predicate ChildrenDiffer(rs: seq<Report>) {
    forall i, j :: 0 <= i < j < |rs| ==> rs[i].child != rs[j].child
  }

  /** After one step: the invariant, and who is gone. */
  lemma GoneStep(s: State, e: Event, c: int)
    requires Inv(s) && Defined(s, e) && Gone(s, c)
    ensures Inv(Step(s, e)) && Gone(Step(s, e), c) && NoReportOf(Made(s, e), c)
  {
    Runs.StepKeeps(s, e);
    GoneStays(s, e, c);
    GoneNotMade(s, e, c);
  }

  lemma GoneStays(s: State, e: Event, c: int)
    requires Inv(s) && Defined(s, e) && Gone(s, c)
    ensures Gone(Step(s, e), c)
  {
    StepPids(s, e);
  }

  lemma GoneNotMade(s: State, e: Event, c: int)
    requires Inv(s) && Defined(s, e) && Gone(s, c)
    ensures NoReportOf(Made(s, e), c)
  {
    if ReportOf(s, e).Some? {
      ReportedGoes(s, e);
    }
  }

  lemma {:induction false} GoneUnreported(s: State, es: seq<Event>, c: int)
    requires Inv(s) && ValidRun(s, es) && Gone(s, c)
    ensures NoReportOf(Reports(s, es), c)
    decreases |es|
  {
    if es != [] {
      var rest := Reports(Step(s, es[0]), es[1..]);
      GoneStep(s, es[0], c);
      GoneUnreported(Step(s, es[0]), es[1..], c);
      NoReportJoin(Made(s, es[0]), rest, c);
    }
  }

  lemma NoReportJoin(a: seq<Report>, b: seq<Report>, c: int)
    requires NoReportOf(a, c) && NoReportOf(b, c)
    ensures NoReportOf(a + b, c)
  { }

  lemma DifferJoin(a: seq<Report>, b: seq<Report>)
    requires |a| <= 1 && ChildrenDiffer(b) && forall i :: 0 <= i < |a| ==> NoReportOf(b, a[i].child)
    ensures ChildrenDiffer(a + b)
  { }

  /** Over any run no child is reported twice: pids are never used again. */
  lemma {:induction false} ReportedOnce(s: State, es: seq<Event>)
    requires Inv(s) && ValidRun(s, es)
    ensures ChildrenDiffer(Reports(s, es))
    decreases |es|
  {
    if es != [] {
      MadeDiffers(s, es[0], es[1..]);
      ReportedOnce(Step(s, es[0]), es[1..]);
      DifferJoin(Made(s, es[0]), Reports(Step(s, es[0]), es[1..]));
    }
  }

  lemma MadeDiffers(s: State, e: Event, rest: seq<Event>)
    requires Inv(s) && Defined(s, e) && ValidRun(Step(s, e), rest)
    ensures Inv(Step(s, e))
    ensures forall i :: 0 <= i < |Made(s, e)| ==> NoReportOf(Reports(Step(s, e), rest), Made(s, e)[i].child)
  {
    Runs.StepKeeps(s, e);
    MadeAreGone(s, e);
    forall i | 0 <= i < |Made(s, e)|
      ensures NoReportOf(Reports(Step(s, e), rest), Made(s, e)[i].child)
    {
      GoneUnreported(Step(s, e), rest, Made(s, e)[i].child);
    }
  }

  lemma MadeAreGone(s: State, e: Event)
    requires Inv(s) && Defined(s, e)
    ensures forall i :: 0 <= i < |Made(s, e)| ==> Gone(Step(s, e), Made(s, e)[i].child)
  {
    if ReportOf(s, e).Some? {
      ReportedGoes(s, e);
    }
  }

  lemma KeyCount(s: State, t: State)
    ensures t.procs.Keys == s.procs.Keys ==> |t.procs| == |s.procs|
    ensures forall c: Pid :: c in s.procs && t.procs.Keys == s.procs.Keys - {c} ==> |t.procs| == |s.procs| - 1
    ensures forall c: Pid :: c !in s.procs && t.procs.Keys == s.procs.Keys + {c} ==> |t.procs| == |s.procs| + 1
  { }

  lemma Population(s: State, e: Event)
    requires Inv(s) && Defined(s, e)
    ensures Step(s, e).lastPid - |Step(s, e).procs| == s.lastPid - |s.procs| + |Made(s, e)|
  {
    KeyCount(s, Step(s, e));
    if !Related(e) {
      StepUnrelated(s, e);
    } else {
      match e.call {
        case Fork => ForkCount(s);
        case Wait(pid, hasCell) => WaitPopulation(s, pid, hasCell);
        case Exit(value) => ExitPopulation(s, value);
      }
    }
  }

  lemma WaitPopulation(s: State, pid: int, hasCell: bool)
    requires Inv(s) && Defined(s, Trap(Wait(pid, hasCell)))
    ensures var e := Trap(Wait(pid, hasCell)); |Step(s, e).procs| == |s.procs| - |Made(s, e)| && Step(s, e).lastPid == s.lastPid
  {
    KeyCount(s, Step(s, Trap(Wait(pid, hasCell))));
    WaitReports(s, pid, hasCell);
    WaitPidCount(s, pid, hasCell);
  }

  lemma ExitPopulation(s: State, value: int)
    requires Inv(s) && Defined(s, Trap(Exit(value)))
    ensures var e := Trap(Exit(value)); |Step(s, e).procs| == |s.procs| - |Made(s, e)| && Step(s, e).lastPid == s.lastPid
  {
    KeyCount(s, Step(s, Trap(Exit(value))));
    RunnerActive(s);
    ExitReports(s, value);
    ExitPidCount(s, value);
  }

  lemma ForkCount(s: State)
    requires Places(s) && s.running.Some?
    ensures var t := Step(s, Trap(Fork)); t.lastPid == s.lastPid + 1 && |t.procs| == |s.procs| + 1
  { }

  lemma WaitPidCount(s: State, pid: int, hasCell: bool)
    ensures Step(s, Trap(Wait(pid, hasCell))).lastPid == s.lastPid
  { }

  lemma ExitPidCount(s: State, value: int)
    ensures Step(s, Trap(Exit(value))).lastPid == s.lastPid
  { }

  /** Nobody disappears without a report: the processes made so far are those still there and those reported. */
  lemma {:induction false} NobodyLost(s: State, es: seq<Event>)
    requires Inv(s) && ValidRun(s, es)
    ensures Run(s, es).lastPid - |Run(s, es).procs| == s.lastPid - |s.procs| + |Reports(s, es)|
    decreases |es|
  {
    if es != [] {
      Population(s, es[0]);
      Runs.StepKeeps(s, es[0]);
      NobodyLost(Step(s, es[0]), es[1..]);
    }
  }

  /** The value c passes to exit in the run. */
  function ExitOf(s: State, es: seq<Event>, c: int): Option<int>
    decreases |es|
  {
    if es == [] then None
    else if es[0].Trap? && es[0].call.Exit? && Cur(s) == c then Some(es[0].call.value)
    else ExitOf(Step(s, es[0]), es[1..], c)
  }

  /** A process that has exited does not exit again. */
  lemma {:induction false} ExitsOnce(s: State, es: seq<Event>, c: int)
    requires Inv(s) && ValidRun(s, es) && (Gone(s, c) || (c >= 0 && IsZombie(s, c)))
    ensures ExitOf(s, es, c).None?
    decreases |es|
  {
    if es != [] {
      RunnerActive(s);
      Runs.StepKeeps(s, es[0]);
      StepPids(s, es[0]);
      KnownPid(s);
      ExitsOnce(Step(s, es[0]), es[1..], c);
    }
  }

  lemma KnownPid(s: State)
    requires Places(s)
    ensures forall p :: p in s.procs ==> p < s.lastPid
  { }

  /** The value a report carries is the one its child passed to exit, in the run or before it. */
  ghost predicate Truthful(s: State, es: seq<Event>, r: Report) {
    match ExitOf(s, es, r.child)
    case Some(v) => r.value.Some? ==> r.value == Some(v)
    case None => r.child >= 0 && IsZombie(s, r.child) && (r.value.Some? ==> r.value == Some(s.procs[r.child].exitValue))
  }

  lemma FirstReportTruthful(s: State, es: seq<Event>)
    requires Inv(s) && es != [] && ValidRun(s, es) && ReportOf(s, es[0]).Some?
    ensures Truthful(s, es, ReportOf(s, es[0]).value)
  {
    var e, t, r := es[0], Step(s, es[0]), ReportOf(s, es[0]).value;
    Runs.StepKeeps(s, e);
    RunnerActive(s);
    ReportedGoes(s, e);
    if e.call.Wait? {
      WaitReports(s, e.call.pid, e.call.hasCell);
      ExitsOnce(t, es[1..], r.child);
    } else {
      ExitReports(s, e.call.value);
    }
  }

  /** What is truthful after a step is truthful before it. */
  lemma LaterReportTruthful(s: State, es: seq<Event>, r: Report)
    requires Inv(s) && es != [] && ValidRun(s, es) && Truthful(Step(s, es[0]), es[1..], r)
    ensures Truthful(s, es, r)
  {
    var e, t := es[0], Step(s, es[0]);
    Runs.StepKeeps(s, e);
    StepPids(s, e);
    if e.Trap? && e.call.Exit? && Cur(s) == r.child {
      ExitReports(s, e.call.value);
      RunnerActive(s);
      KnownPid(s);
      ExitsOnce(t, es[1..], r.child);
    }
  }

  ghost predicate AllTruthful(s: State, es: seq<Event>, rs: seq<Report>) {
    forall i :: 0 <= i < |rs| ==> Truthful(s, es, rs[i])
  }

  lemma LaterReportsTruthful(s: State, es: seq<Event>, rs: seq<Report>)
    requires Inv(s) && es != [] && ValidRun(s, es) && AllTruthful(Step(s, es[0]), es[1..], rs)
    ensures AllTruthful(s, es, rs)
  {
    forall i | 0 <= i < |rs|
      ensures Truthful(s, es, rs[i])
    {
      LaterReportTruthful(s, es, rs[i]);
    }
  }

  lemma TruthfulJoin(s: State, es: seq<Event>, a: seq<Report>, b: seq<Report>)
    requires AllTruthful(s, es, a) && AllTruthful(s, es, b)
    ensures AllTruthful(s, es, a + b)
  { }

  lemma MadeTruthful(s: State, es: seq<Event>)
    requires Inv(s) && es != [] && ValidRun(s, es)
    ensures AllTruthful(s, es, Made(s, es[0]))
  {
    if ReportOf(s, es[0]).Some? {
      FirstReportTruthful(s, es);
    }
  }

  /** Over any run every report carries the value its child passed to exit. */
  lemma {:induction false} ReportsAreTruthful(s: State, es: seq<Event>)
    requires Inv(s) && ValidRun(s, es)
    ensures AllTruthful(s, es, Reports(s, es))
    decreases |es|
  {
    if es != [] {
      var rest := Reports(Step(s, es[0]), es[1..]);
      MadeTruthful(s, es);
      Runs.StepKeeps(s, es[0]);
      ReportsAreTruthful(Step(s, es[0]), es[1..]);
      LaterReportsTruthful(s, es, rest);
      TruthfulJoin(s, es, Made(s, es[0]), rest);
    }
  }

  // ----- who is told

  /** Who is on a list was born to its owner, unless the owner is init. */
  ghost predicate Adopted(s: State) {
    forall p: Pid, c: Pid :: Kid(s, p, c) ==> p == INIT || At(s, c).parent == Some(p)
  }

  lemma WaitAdopted(s: State, pid: int, hasCell: bool)
    requires Places(s) && Family(s) && s.running.Some? && Adopted(s)
    ensures Adopted(DoWait(s, pid, hasCell))
  {
    RunnerActive(s);
    ScannedIsKid(s, pid);
    if Me(s).children == [] {
      ReturnAdopted(s, DSOS_EWAIT);
    } else if At(s, Scan(s, Me(s).children, pid)).status == Zombie {
      ReapAdopted(s, Scan(s, Me(s).children, pid), hasCell);
    } else {
      BlockedControlBlocks(s);
      BlockAdopted(s, Dispatch(Suspend(s), false));
    }
  }

  lemma ReturnAdopted(s: State, v: int)
    requires Cur(s) in s.procs && Adopted(s)
    ensures Adopted(Return(s, v))
  {
    forall p: Pid, k: Pid | Kid(Return(s, v), p, k)
      ensures p == INIT || At(Return(s, v), k).parent == Some(p)
    {
      assert Kid(s, p, k);
    }
  }

  lemma ReapAdopted(s: State, c: Pid, hasCell: bool)
    requires c != Cur(s) && Adopted(s) && Kid(s, Cur(s), c) && Family(s)
    ensures Adopted(Reap(s, c, hasCell))
  {
    var t := Reap(s, c, hasCell);
    forall p: Pid, k: Pid | Kid(t, p, k)
      ensures p == INIT || At(t, k).parent == Some(p)
    {
      assert Kid(s, p, k) && k != c;
    }
  }

  lemma BlockAdopted(s: State, t: State)
    requires Cur(s) in s.procs && t.procs == s.procs[Cur(s) := Me(s).(status := Waiting)] && Adopted(s)
    ensures Adopted(t)
  {
    forall p: Pid, k: Pid | Kid(t, p, k)
      ensures p == INIT || At(t, k).parent == Some(p)
    {
      assert Kid(s, p, k);
    }
  }

  lemma ForkAdopted(s: State)
    requires Places(s) && Family(s) && s.running.Some? && Adopted(s)
    ensures Adopted(DoFork(s))
  {
    var t := DoFork(s);
    RunnerActive(s);
    KnownPid(s);
    forall p: Pid, k: Pid | Kid(t, p, k)
      ensures p == INIT || At(t, k).parent == Some(p)
    {
      assert Kid(s, p, k) || (p == Cur(s) && k == s.lastPid);
      if Kid(s, p, k) {
        assert k in s.procs;
      }
    }
  }

  lemma ExitDeparts(s: State, value: int)
    requires Inv(s) && s.running.Some? && Me(s).parent.Some? && Me(s).parent.value in s.procs
    ensures Departed(s, DoExit(s, value))
  {
    RunnerActive(s);
    Processes.ParentIsOther(s);
    if AwaitsExitOf(s, ParentOf(s, Cur(s)), Cur(s)) {
      DeliverFacts(s, value, ParentOf(s, Cur(s)));
    } else {
      BuryFacts(s, value);
    }
  }

  lemma DepartedAdopted(s: State, t: State)
    requires Departed(s, t) && Adopted(s) && Family(s)
    ensures Adopted(t)
  {
    forall p: Pid, k: Pid | Kid(t, p, k) && p != INIT
      ensures At(t, k).parent == Some(p)
    {
      assert Kid(s, p, k);
    }
  }

  lemma UnrelatedAdopted(s: State, t: State)
    requires Unrelated(s, t) && Adopted(s) && Family(s)
    ensures Adopted(t)
  {
    forall p: Pid, k: Pid | Kid(t, p, k)
      ensures p == INIT || At(t, k).parent == Some(p)
    {
      assert Kid(s, p, k);
    }
  }

  lemma AdoptedStep(s: State, e: Event)
    requires Inv(s) && Defined(s, e) && Adopted(s)
    ensures Adopted(Step(s, e))
  {
    if !Related(e) {
      StepUnrelated(s, e);
      UnrelatedAdopted(s, Step(s, e));
    } else {
      var u := Enter(s, e.call);
      Frames.EnterKeeps(s, e.call);
      EnterUnrelated(s, e.call);
      UnrelatedAdopted(s, u);
      RelatedAdopted(u, e.call);
    }
  }

  lemma RelatedAdopted(s: State, c: Call)
    requires Inv(s) && s.running.Some? && Provided(s, c) && Adopted(s) && (c.Fork? || c.Wait? || c.Exit?)
    ensures Adopted(Perform(s, c))
  {
    match c
    case Fork => ForkAdopted(s);
    case Wait(pid, hasCell) => WaitAdopted(s, pid, hasCell);
    case Exit(value) =>
      ExitDeparts(s, value);
      DepartedAdopted(s, DoExit(s, value));
  }

  /** The process that makes c in the run. */
  function BirthOf(s: State, es: seq<Event>, c: int): Option<Pid>
    decreases |es|
  {
    if es == [] then None
    else if es[0] == Trap(Fork) && s.lastPid == c then Some(Cur(s))
    else BirthOf(Step(s, es[0]), es[1..], c)
  }

  lemma {:induction false} BornOnce(s: State, es: seq<Event>, c: int)
    requires Inv(s) && ValidRun(s, es) && c < s.lastPid
    ensures BirthOf(s, es, c).None?
    decreases |es|
  {
    if es != [] {
      Runs.StepKeeps(s, es[0]);
      StepPids(s, es[0]);
      BornOnce(Step(s, es[0]), es[1..], c);
    }
  }

  /** Nobody changes parents, and only a fork makes anybody. */
  ghost predicate SameParents(s: State, e: Event, t: State) {
    forall c: Pid :: c in t.procs ==>
      if c in s.procs then t.procs[c].parent == s.procs[c].parent
      else e == Trap(Fork) && c == s.lastPid && t.procs[c].parent == Some(Cur(s))
  }

  lemma ParentsStay(s: State, e: Event)
    requires Inv(s) && Defined(s, e)
    ensures SameParents(s, e, Step(s, e))
  {
    if !Related(e) {
      StepUnrelated(s, e);
    } else {
      var u := Enter(s, e.call);
      Frames.EnterKeeps(s, e.call);
      EnterUnrelated(s, e.call);
      RelatedParents(u, e.call);
    }
  }

  lemma RelatedParents(s: State, c: Call)
    requires Inv(s) && s.running.Some? && Provided(s, c) && (c.Fork? || c.Wait? || c.Exit?)
    ensures SameParents(s, Trap(c), Perform(s, c))
  {
    RunnerActive(s);
    match c
    case Fork =>
      KnownPid(s);
      ForkParents(s);
    case Wait(pid, hasCell) => WaitParents(s, pid, hasCell);
    case Exit(value) =>
      ExitDeparts(s, value);
      DepartedParents(s, DoExit(s, value), Trap(c));
  }

  lemma ForkParents(s: State)
    requires Cur(s) in s.procs && s.lastPid !in s.procs
    ensures SameParents(s, Trap(Fork), DoFork(s))
  { }

  lemma DepartedParents(s: State, t: State, e: Event)
    requires Departed(s, t)
    ensures SameParents(s, e, t)
  { }

  lemma WaitParents(s: State, pid: int, hasCell: bool)
    requires Cur(s) in s.procs
    ensures SameParents(s, Trap(Wait(pid, hasCell)), DoWait(s, pid, hasCell))
  {
    if Me(s).children != [] && At(s, Scan(s, Me(s).children, pid)).status != Zombie {
      BlockedControlBlocks(s);
    }
  }

  /** Only by exiting does a process die. */
  lemma DeadStep(s: State, e: Event, q: Pid)
    requires Inv(s) && Defined(s, e) && Dead(Step(s, e), q)
    ensures Dead(s, q) || (e.Trap? && e.call.Exit? && Cur(s) == q)
  {
    StepPids(s, e);
    if q in s.procs && q !in Step(s, e).procs {
      GoneExits(s, e, q);
    }
  }

  /** Only what has exited, or exits, disappears. */
  lemma GoneExits(s: State, e: Event, q: Pid)
    requires Inv(s) && Defined(s, e) && q in s.procs && q !in Step(s, e).procs
    ensures IsZombie(s, q) || (e.Trap? && e.call.Exit? && Cur(s) == q)
  {
    if !Related(e) {
      StepUnrelated(s, e);
    } else if e.call.Wait? {
      GoneInWait(s, e.call.pid, e.call.hasCell, q);
    } else if e.call.Exit? {
      GoneInExit(s, e.call.value, q);
    }
  }

  lemma GoneInWait(s: State, pid: int, hasCell: bool, q: Pid)
    requires Inv(s) && Defined(s, Trap(Wait(pid, hasCell))) && q in s.procs && q !in Step(s, Trap(Wait(pid, hasCell))).procs
    ensures IsZombie(s, q)
  {
    WaitReports(s, pid, hasCell);
  }

  lemma GoneInExit(s: State, value: int, q: Pid)
    requires Inv(s) && Defined(s, Trap(Exit(value))) && q in s.procs && q !in Step(s, Trap(Exit(value))).procs
    ensures Cur(s) == q
  {
    ExitReports(s, value);
  }

  /** Whose list a process is on: that of the one it was born to, or init's once that one has exited. */
  lemma OnWhoseList(s: State, p: Pid, c: Pid)
    requires Inv(s) && Adopted(s) && Kid(s, p, c)
    ensures c in s.procs && s.procs[c].parent.Some?
    ensures var q := s.procs[c].parent.value; p == q || (p == INIT && Dead(s, q))
  {
    assert Listed(s, c);
  }

  /** The report went to the process that made the child, or to init after that one had exited. */
  ghost predicate RightParent(s: State, es: seq<Event>, r: Report) {
    match BirthOf(s, es, r.child)
    case Some(q) => r.parent == q || (r.parent == INIT && ExitOf(s, es, q).Some?)
    case None =>
      && r.child >= 0 && r.child in s.procs && s.procs[r.child].parent.Some?
      && var q := s.procs[r.child].parent.value; r.parent == q || (r.parent == INIT && (Dead(s, q) || ExitOf(s, es, q).Some?))
  }

  lemma FirstReportRight(s: State, es: seq<Event>)
    requires Inv(s) && Adopted(s) && es != [] && ValidRun(s, es) && ReportOf(s, es[0]).Some?
    ensures RightParent(s, es, ReportOf(s, es[0]).value)
  {
    var e, r := es[0], ReportOf(s, es[0]).value;
    if e.call.Wait? {
      WaitReports(s, e.call.pid, e.call.hasCell);
    } else {
      ExitReports(s, e.call.value);
    }
    OnWhoseList(s, r.parent, r.child);
    KnownPid(s);
    BornOnce(s, es, r.child);
  }

  lemma LaterReportRight(s: State, es: seq<Event>, r: Report)
    requires Inv(s) && es != [] && ValidRun(s, es) && RightParent(Step(s, es[0]), es[1..], r)
    ensures RightParent(s, es, r)
  {
    var e, t := es[0], Step(s, es[0]);
    ParentsStay(s, e);
    if e == Trap(Fork) && s.lastPid == r.child {
      ForkedReportRight(s, es, r);
    } else if BirthOf(t, es[1..], r.child).None? {
      var q := t.procs[r.child].parent.value;
      if Dead(t, q) {
        DeadStep(s, e, q);
      }
    }
  }

  lemma ForkedReportRight(s: State, es: seq<Event>, r: Report)
    requires Inv(s) && es != [] && ValidRun(s, es) && RightParent(Step(s, es[0]), es[1..], r)
    requires es[0] == Trap(Fork) && s.lastPid == r.child && SameParents(s, es[0], Step(s, es[0]))
    ensures RightParent(s, es, r)
  {
    var t := Step(s, es[0]);
    RunnerActive(s);
    KnownPid(s);
    Runs.StepKeeps(s, es[0]);
    ForkCount(s);
    BornOnce(t, es[1..], r.child);
    if Dead(t, Cur(s)) {
      DeadStep(s, es[0], Cur(s));
    }
  }

  ghost predicate AllRight(s: State, es: seq<Event>, rs: seq<Report>) {
    forall i :: 0 <= i < |rs| ==> RightParent(s, es, rs[i])
  }

  lemma RightJoin(s: State, es: seq<Event>, later: seq<Report>)
    requires Inv(s) && Adopted(s) && es != [] && ValidRun(s, es) && AllRight(Step(s, es[0]), es[1..], later)
    ensures AllRight(s, es, Made(s, es[0]) + later)
  {
    var rs := Made(s, es[0]) + later;
    forall i | 0 <= i < |rs|
      ensures RightParent(s, es, rs[i])
    {
      if i < |Made(s, es[0])| {
        FirstReportRight(s, es);
      } else {
        LaterReportRight(s, es, rs[i]);
      }
    }
  }

  /** Over any run every report goes to the process that made the child, or to init after that one has exited. */
  lemma {:induction false} ReportsGoRight(s: State, es: seq<Event>)
    requires Inv(s) && Adopted(s) && ValidRun(s, es)
    ensures AllRight(s, es, Reports(s, es))
    decreases |es|
  {
    if es != [] {
      Runs.StepKeeps(s, es[0]);
      AdoptedStep(s, es[0]);
      ReportsGoRight(Step(s, es[0]), es[1..]);
      RightJoin(s, es, Reports(Step(s, es[0]), es[1..]));
    }
  }

  /** A report of a run from the start: the child was made in the run, by the process that is told or, if that one had exited, by
      one that left it to init; and the value, if asked for, is the one the child passed to exit. */
  ghost predicate Exact(es: seq<Event>, r: Report) {
    && BirthOf(Boot(), es, r.child).Some? && ExitOf(Boot(), es, r.child).Some?
    && (r.parent == BirthOf(Boot(), es, r.child).value
        || (r.parent == INIT && ExitOf(Boot(), es, BirthOf(Boot(), es, r.child).value).Some?))
    && (r.value.Some? ==> r.value == ExitOf(Boot(), es, r.child))
  }

  lemma FromBootExact(es: seq<Event>, r: Report)
    requires RightParent(Boot(), es, r) && Truthful(Boot(), es, r)
    ensures Exact(es, r)
  { }

  lemma AllExact(es: seq<Event>)
    requires ValidRun(Boot(), es)
    ensures forall i :: 0 <= i < |Reports(Boot(), es)| ==> Exact(es, Reports(Boot(), es)[i])
  {
    var rs := Reports(Boot(), es);
    BootInv();
    ReportsAreTruthful(Boot(), es);
    ReportsGoRight(Boot(), es);
    forall i | 0 <= i < |rs|
      ensures Exact(es, rs[i])
    {
      FromBootExact(es, rs[i]);
    }
  }

  /** From the start: the reported children are pairwise distinct, every process ever made is still there or was reported,
      and every report is exact. */
  lemma ReapingIsExact(es: seq<Event>)
    requires ValidRun(Boot(), es)
    ensures var rs, t := Reports(Boot(), es), Run(Boot(), es);
      && ChildrenDiffer(rs)
      && t.lastPid == |t.procs| + |rs|
      && (forall i :: 0 <= i < |rs| ==> Exact(es, rs[i]))
  {
    BootInv();
    ReportedOnce(Boot(), es);
    NobodyLost(Boot(), es);
    AllExact(es);
  }

  // ----- waiting for a process that is no child

  /** A wait for a certain pid reports another child if and only if that pid is no child of the caller and the last child on
      its list has exited: the scan runs off the list and stays on its last element. */
  lemma WrongChild(s: State, pid: int, hasCell: bool)
    requires Inv(s) && Defined(s, Trap(Wait(pid, hasCell))) && pid != 0
    ensures var r, kids := ReportOf(s, Trap(Wait(pid, hasCell))), Me(s).children;
      (r.Some? && r.value.child != pid) <==> (kids != [] && pid !in kids && IsZombie(s, kids[|kids| - 1]))
  {
    WaitReportIs(s, pid, hasCell);
    ScannedIsKid(s, pid);
    if Me(s).children != [] {
      Processes.ScanFinds(s, Me(s).children, pid);
    }
  }

  lemma EnterChildren(s: State, c: Call)
    ensures Me(Enter(s, c)).children == Me(s).children && Cur(Enter(s, c)) == Cur(s)
    ensures forall k: Pid :: At(Enter(s, c), k).status == At(s, k).status
  { }

  /** p is blocked in a wait for a pid that is not that of a process born to it. */
  predicate WaitsForNobody(s: State, p: Pid) {
    && InWaitCall(s, p) && At(s, p).call.value.pid != 0
    && forall k: Pid :: k in s.procs && k == At(s, p).call.value.pid ==> s.procs[k].parent != Some(p)
  }

  /** The process with this pid was born to p. */
  predicate BornTo(s: State, pid: int, p: Pid) {
    pid >= 0 && pid in s.procs && s.procs[pid].parent == Some(p)
  }

  lemma BlockedControlBlocks(s: State)
    requires Cur(s) in s.procs
    ensures Dispatch(Suspend(s), false).procs == s.procs[Cur(s) := Me(s).(status := Waiting)]
  { }

  lemma UnlistedIsNotBorn(s: State, pid: int)
    requires Family(s) && !Dead(s, Cur(s)) && pid !in Me(s).children
    ensures !BornTo(s, pid, Cur(s))
  {
    if pid >= 0 && pid in s.procs {
      assert Listed(s, pid);
    }
  }

  /** A wait gets its caller blocked for nobody exactly when it names a pid, not that of a process born to the caller, and finds
      children but none to report; for a pid that is no child the scan then ended on a last child that has not exited. */
  lemma BlocksForNobody(s: State, pid: int, hasCell: bool)
    requires Inv(s) && Defined(s, Trap(Wait(pid, hasCell)))
    ensures var kids := Me(s).children;
      && (WaitsForNobody(Step(s, Trap(Wait(pid, hasCell))), Cur(s)) <==>
            pid != 0 && kids != [] && !IsZombie(s, Scan(s, kids, pid)) && !BornTo(s, pid, Cur(s)))
      && (pid != 0 && pid !in kids && kids != [] ==> Scan(s, kids, pid) == kids[|kids| - 1] && !BornTo(s, pid, Cur(s)))
  {
    var u := Enter(s, Wait(pid, hasCell));
    RunnerActive(s);
    ScannedIsKid(s, pid);
    ScanOrLast(s, pid);
    EnterForWait(s, pid, hasCell);
    EnteredWaitBlocks(u, pid, hasCell);
  }

  lemma ScanOrLast(s: State, pid: int)
    requires Family(s) && !Dead(s, Cur(s))
    ensures var kids := Me(s).children;
      pid != 0 && pid !in kids && kids != [] ==> Scan(s, kids, pid) == kids[|kids| - 1] && !BornTo(s, pid, Cur(s))
  {
    if pid !in Me(s).children && Me(s).children != [] {
      UnlistedIsNotBorn(s, pid);
      Processes.ScanFinds(s, Me(s).children, pid);
    }
  }

  /** Recording the call changes nothing that a wait looks at. */
  lemma EnterForWait(s: State, pid: int, hasCell: bool)
    requires s.running.Some? && Cur(s) in s.procs
    ensures var u := Enter(s, Wait(pid, hasCell));
      && Step(s, Trap(Wait(pid, hasCell))) == DoWait(u, pid, hasCell)
      && Cur(u) == Cur(s) && u.procs.Keys == s.procs.Keys && Me(u).call == Some(Wait(pid, hasCell)) && Me(u).children == Me(s).children
      && (Me(s).children != [] ==> Scan(u, Me(s).children, pid) == Scan(s, Me(s).children, pid))
      && (forall k: Pid :: At(u, k).status == At(s, k).status)
      && (BornTo(u, pid, Cur(s)) <==> BornTo(s, pid, Cur(s)))
  {
    if Me(s).children != [] {
      Processes.SameScan(s, Enter(s, Wait(pid, hasCell)), Me(s).children, pid);
    }
  }

  lemma EnteredWaitBlocks(s: State, pid: int, hasCell: bool)
    requires Cur(s) in s.procs && Me(s).status != Waiting && Me(s).status != Zombie && Me(s).call == Some(Wait(pid, hasCell))
    requires Me(s).children != [] ==> Scan(s, Me(s).children, pid) in s.procs && Scan(s, Me(s).children, pid) != Cur(s)
    ensures WaitsForNobody(DoWait(s, pid, hasCell), Cur(s)) <==>
              pid != 0 && Me(s).children != [] && !IsZombie(s, Scan(s, Me(s).children, pid)) && !BornTo(s, pid, Cur(s))
  {
    if Me(s).children != [] {
      if IsZombie(s, Scan(s, Me(s).children, pid)) {
        ReapedIsUp(s, Scan(s, Me(s).children, pid), hasCell);
      } else {
        BlockedControlBlocks(s);
        BlockedForNobody(s, Dispatch(Suspend(s), false), pid);
      }
    }
  }

  lemma ReapedIsUp(s: State, c: Pid, hasCell: bool)
    requires c != Cur(s)
    ensures At(Reap(s, c, hasCell), Cur(s)).status == Me(s).status
  { }

  lemma BlockedForNobody(s: State, t: State, pid: int)
    requires Cur(s) in s.procs && t.procs == s.procs[Cur(s) := Me(s).(status := Waiting)]
    requires InWait(s, Cur(s)) && Me(s).call.value.pid == pid
    ensures WaitsForNobody(t, Cur(s)) <==> pid != 0 && !BornTo(s, pid, Cur(s))
  {
    assert forall k: Pid :: k in s.procs ==> At(t, k).parent == At(s, k).parent;
    if BornTo(s, pid, Cur(s)) {
      assert t.procs[pid].parent == Some(Cur(s));
    }
  }

  lemma ForkForNobody(s: State, p: Pid)
    requires Places(s) && s.running.Some? && WaitsForNobody(s, p)
    ensures WaitsForNobody(DoFork(s), p)
  { }

  lemma WaitForNobody(s: State, pid: int, hasCell: bool, p: Pid)
    requires Inv(s) && s.running.Some? && WaitsForNobody(s, p)
    ensures WaitsForNobody(DoWait(s, pid, hasCell), p)
  {
    RunnerActive(s);
    if Me(s).children == [] {
      ReturnUnrelated(s, DSOS_EWAIT);
    } else {
      var c := Scan(s, Me(s).children, pid);
      if At(s, c).status == Zombie {
        ReapForNobody(s, c, hasCell, p);
      } else {
        BlockForNobody(s, p);
      }
    }
  }

  lemma ReapForNobody(s: State, c: Pid, hasCell: bool, p: Pid)
    requires Cur(s) in s.procs && Me(s).status != Waiting && At(s, c).status == Zombie && WaitsForNobody(s, p)
    ensures WaitsForNobody(Reap(s, c, hasCell), p)
  { }

  lemma BlockForNobody(s: State, p: Pid)
    requires Cur(s) in s.procs && Me(s).status != Waiting && (s.ready != [] ==> At(s, s.ready[0]).status != Waiting)
    requires WaitsForNobody(s, p)
    ensures WaitsForNobody(Dispatch(Suspend(s), false), p)
  { }

  lemma ExitForNobody(s: State, value: int, p: Pid)
    requires Inv(s) && s.running.Some? && Me(s).parent.Some? && Me(s).parent.value in s.procs && WaitsForNobody(s, p)
    ensures WaitsForNobody(DoExit(s, value), p)
  {
    RunnerActive(s);
    Processes.ParentIsOther(s);
    if AwaitsExitOf(s, ParentOf(s, Cur(s)), Cur(s)) {
      DeliverFacts(s, value, ParentOf(s, Cur(s)));
      LeftForNobody(s, DoExit(s, value), p);
    } else {
      BuryFacts(s, value);
      LeftForNobody(s, DoExit(s, value), p);
    }
  }

  lemma LeftForNobody(s: State, t: State, p: Pid)
    requires Departed(s, t) && WaitsForNobody(s, p) && Cur(s) in s.procs && Me(s).parent.Some?
    requires forall k: Pid :: InWaitCall(s, k) && !InWaitCall(t, k) ==> k == Me(s).parent.value && AwaitsExitOf(s, k, Cur(s))
    requires forall k: Pid :: InWaitCall(s, k) && InWaitCall(t, k) ==> At(t, k).call == At(s, k).call
    ensures WaitsForNobody(t, p)
  { }

  lemma NobodyStep(s: State, e: Event, p: Pid)
    requires Inv(s) && Defined(s, e) && WaitsForNobody(s, p)
    ensures WaitsForNobody(Step(s, e), p)
  {
    if !Related(e) {
      StepUnrelated(s, e);
    } else {
      var u := Enter(s, e.call);
      Frames.EnterKeeps(s, e.call);
      EnterUnrelated(s, e.call);
      UnrelatedNobody(s, u, p);
      RelatedNobody(u, e.call, p);
    }
  }

  lemma RelatedNobody(s: State, c: Call, p: Pid)
    requires Inv(s) && s.running.Some? && Provided(s, c) && (c.Fork? || c.Wait? || c.Exit?) && WaitsForNobody(s, p)
    ensures WaitsForNobody(Perform(s, c), p)
  {
    match c
    case Fork => ForkForNobody(s, p);
    case Wait(pid, hasCell) => WaitForNobody(s, pid, hasCell, p);
    case Exit(value) => ExitForNobody(s, value, p);
  }

  lemma UnrelatedNobody(s: State, t: State, p: Pid)
    requires Unrelated(s, t) && WaitsForNobody(s, p)
    ensures WaitsForNobody(t, p)
  { }

  /** Nothing ever ends such a wait, whatever happens: the error the comment of internal_wait announces is never given. */
  lemma {:induction false} BlockedForever(s: State, es: seq<Event>, p: Pid)
    requires Inv(s) && ValidRun(s, es) && WaitsForNobody(s, p)
    ensures WaitsForNobody(Run(s, es), p) && p in Run(s, es).waiting
    decreases |es|
  {
    if es == [] {
      assert p in s.procs;
    } else {
      Runs.StepKeeps(s, es[0]);
      NobodyStep(s, es[0], p);
      BlockedForever(Step(s, es[0]), es[1..], p);
    }
  }
}
