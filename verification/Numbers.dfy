/** The numbers that processes and descriptors get: pids and fds are given out one after the other, and never again. */
module Numbers {
  import opened Lists
  import opened Machine
  import opened Invariants
  import opened Outcomes
  import Answers
  import Exits
  import Processes
  import Runs

  // ----- pids

  /** How many forks there are in the run. */
  function Forks(es: seq<Event>): nat {
    if es == [] then 0 else (if es[0] == Trap(Fork) then 1 else 0) + Forks(es[1..])
  }

  lemma PidStep(s: State, e: Event)
    requires Inv(s) && Defined(s, e)
    ensures var t := Step(s, e);
      && t.lastPid == s.lastPid + (if e == Trap(Fork) then 1 else 0)
      && t.procs.Keys <= s.procs.Keys + (if e == Trap(Fork) then {s.lastPid} else {})
  {
    StepEnds(s, e);
    CallerApart(s);
    EndsPids(s, e, Step(s, e));
  }

  lemma EndsPids(s: State, e: Event, t: State)
    requires Ends(s, e, t) && Cur(s) in s.procs
    ensures t.lastPid == s.lastPid + (if e == Trap(Fork) then 1 else 0)
    ensures t.procs.Keys <= s.procs.Keys + (if e == Trap(Fork) then {s.lastPid} else {})
  {
    if e.Trap? && (e.call.Open? || e.call.Close? || e.call.Destroy?) {
      EndsAtOnce(s, e.call, t);
    }
  }

  lemma {:induction false} PidsCountForks(s: State, es: seq<Event>)
    requires Inv(s) && ValidRun(s, es)
    ensures Run(s, es).lastPid == s.lastPid + Forks(es)
    decreases |es|
  {
    if es != [] {
      PidStep(s, es[0]);
      Runs.StepKeeps(s, es[0]);
      PidsCountForks(Step(s, es[0]), es[1..]);
    }
  }

  /** The n-th fork since the start, whoever calls it, makes process n and answers n. */
  lemma ForkNumbers(es: seq<Event>)
    requires ValidRun(Boot(), es) && Defined(Run(Boot(), es), Trap(Fork))
    ensures var s := Run(Boot(), es); var t := Step(s, Trap(Fork)); var n := Forks(es) + 1;
      Me(t).ret == n && n !in s.procs && t.procs.Keys == s.procs.Keys + {n} && (forall p :: p in s.procs ==> p < n)
  {
    BootInv();
    Runs.RunKeeps(Boot(), es);
    PidsCountForks(Boot(), es);
    ForkOutcome(Run(Boot(), es));
  }

  /** A pid that was given out and is free is never used again. */
  lemma {:induction false} GoneForEver(s: State, es: seq<Event>, p: Pid)
    requires Inv(s) && ValidRun(s, es) && p < s.lastPid && p !in s.procs
    ensures p !in Run(s, es).procs
    decreases |es|
  {
    if es != [] {
      PidStep(s, es[0]);
      Runs.StepKeeps(s, es[0]);
      GoneForEver(Step(s, es[0]), es[1..], p);
    }
  }

  // ----- fds

  /** p opens a queue in e and gets a descriptor. */
  predicate Opens(s: State, e: Event, p: Pid) {
    Answers.Calls(s, e, p) && e.call.Open? && Me(Step(s, e)).ret >= 0
  }

  function OpensAlong(s: State, es: seq<Event>, p: Pid): nat
    decreases |es|
  {
    if es == [] then 0 else (if Opens(s, es[0], p) then 1 else 0) + OpensAlong(Step(s, es[0]), es[1..], p)
  }

  lemma FdStep(s: State, e: Event, p: Pid)
    requires Inv(s) && Defined(s, e) && p in Step(s, e).procs
    ensures At(Step(s, e), p).lastFd == At(s, p).lastFd + (if Opens(s, e, p) then 1 else 0)
  {
    StepEnds(s, e);
    CallerApart(s);
    EndsFds(s, e, Step(s, e), p);
  }

  lemma EndsFds(s: State, e: Event, t: State, p: Pid)
    requires Ends(s, e, t) && s.running.Some? && Cur(s) in s.procs && p in t.procs
    ensures At(t, p).lastFd == At(s, p).lastFd + (if Answers.Calls(s, e, p) && e.call.Open? && Me(t).ret >= 0 then 1 else 0)
  {
    if e.Trap? && e.call.Open? {
      OpenFds(s, t, e.call.id, e.call.mode, p);
    } else if e.Trap? && e.call.Exit? {
      ExitFds(s, t, e.call.value, p);
    } else if e.Trap? && e.call.Wait? {
      WaitFds(s, t, e.call.pid, e.call.hasCell, p);
    } else {
      OtherFds(s, e, t, p);
    }
  }

  lemma OtherFds(s: State, e: Event, t: State, p: Pid)
    requires Ends(s, e, t) && (e.Trap? ==> !e.call.Open? && !e.call.Exit? && !e.call.Wait?) && Cur(s) in s.procs && p in t.procs
    ensures At(t, p).lastFd == At(s, p).lastFd
  {
    if e.Trap? && (e.call.Write? || e.call.Read?) {
      MessageFds(s, e.call, t, p);
    } else if e.Trap? && e.call.Close? {
      CloseFds(s, t, e.call.fd, p);
    }
  }

  lemma MessageFds(s: State, c: Call, t: State, p: Pid)
    requires CallEnds(s, t, c) && (c.Write? || c.Read?) && Cur(s) in s.procs && p in t.procs
    ensures At(t, p).lastFd == At(s, p).lastFd
  { }

  lemma CloseFds(s: State, t: State, fd: int, p: Pid)
    requires CloseEnds(s, t, fd) && Cur(s) in s.procs
    ensures At(t, p).lastFd == At(s, p).lastFd
  { }

  lemma OpenFds(s: State, t: State, id: int, mode: int, p: Pid)
    requires OpenEnds(s, t, id, mode) && s.running.Some? && Cur(s) in s.procs
    ensures At(t, p).lastFd == At(s, p).lastFd + (if s.running == Some(p) && Me(t).ret >= 0 then 1 else 0)
  { }

  lemma ExitFds(s: State, t: State, value: int, p: Pid)
    requires ExitEnds(s, t, value) && p in t.procs
    ensures At(t, p).lastFd == At(s, p).lastFd
  { }

  lemma WaitFds(s: State, t: State, pid: int, hasCell: bool, p: Pid)
    requires WaitEnds(s, t, pid, hasCell) && Cur(s) in s.procs && p in t.procs
    ensures At(t, p).lastFd == At(s, p).lastFd
  { }

  /** A process that is there in the end is there now, or has yet to be made. */
  lemma ThereOrToCome(s: State, es: seq<Event>, p: Pid)
    requires Inv(s) && ValidRun(s, es) && p in Run(s, es).procs
    ensures p in s.procs || p >= s.lastPid
  {
    if p !in s.procs && p < s.lastPid {
      GoneForEver(s, es, p);
    }
  }

  lemma ToComeOpensNothing(s: State, e: Event, p: Pid)
    requires Inv(s) && Defined(s, e) && p >= Step(s, e).lastPid
    ensures p !in s.procs && p !in Step(s, e).procs && !Opens(s, e, p)
  {
    PidStep(s, e);
    PidsBelow(s);
    CallerApart(s);
    Runs.StepKeeps(s, e);
    PidsBelow(Step(s, e));
  }

  /** What a process has opened since s is what its next fd has grown by. */
  lemma {:induction false} FdsCountOpens(s: State, es: seq<Event>, p: Pid)
    requires Inv(s) && ValidRun(s, es) && p in Run(s, es).procs
    ensures At(Run(s, es), p).lastFd == At(s, p).lastFd + OpensAlong(s, es, p)
    decreases |es|
  {
    if es != [] {
      var t := Step(s, es[0]);
      Runs.StepKeeps(s, es[0]);
      FdsCountOpens(t, es[1..], p);
      ThereOrToCome(t, es[1..], p);
      if p in t.procs {
        FdStep(s, es[0], p);
      } else {
        ToComeOpensNothing(s, es[0], p);
      }
    }
  }

  /** The n-th descriptor that a process gets has fd n - 1, whatever it has closed. */
  lemma OpenNumbers(es: seq<Event>, id: int, mode: int)
    requires ValidRun(Boot(), es) && Defined(Run(Boot(), es), Trap(Open(id, mode)))
    requires Opens(Run(Boot(), es), Trap(Open(id, mode)), Cur(Run(Boot(), es)))
    ensures var s := Run(Boot(), es); Me(Step(s, Trap(Open(id, mode)))).ret == OpensAlong(Boot(), es, Cur(s))
  {
    var s := Run(Boot(), es);
    BootInv();
    Runs.RunKeeps(Boot(), es);
    FdsFromBoot(es);
    AnswerIsNextFd(s, id, mode);
  }

  lemma FdsFromBoot(es: seq<Event>)
    requires ValidRun(Boot(), es) && Run(Boot(), es).running.Some?
    ensures Me(Run(Boot(), es)).lastFd == OpensAlong(Boot(), es, Cur(Run(Boot(), es)))
  {
    BootInv();
    Runs.RunKeeps(Boot(), es);
    CallerApart(Run(Boot(), es));
    FdsCountOpens(Boot(), es, Cur(Run(Boot(), es)));
  }

  lemma AnswerIsNextFd(s: State, id: int, mode: int)
    requires Inv(s) && Defined(s, Trap(Open(id, mode))) && Me(Step(s, Trap(Open(id, mode)))).ret >= 0
    ensures Me(Step(s, Trap(Open(id, mode)))).ret == Me(s).lastFd
  {
    OpenOutcome(s, id, mode);
  }

  // ----- children

  /** Every process has its children in the order of their birth. */
  ghost predicate InBirthOrder(s: State) {
    forall p :: p in s.procs ==> Increasing(s.procs[p].children)
  }

  ghost predicate Increasing(ps: seq<Pid>) {
    forall i, j :: 0 <= i < j < |ps| ==> ps[i] < ps[j]
  }

  lemma {:induction false} WithoutIncreasing(ps: seq<Pid>, gone: seq<Pid>)
    requires Increasing(ps)
    ensures Increasing(Without(ps, gone))
  {
    if ps != [] {
      WithoutIncreasing(ps[1..], gone);
      var rest := Without(ps[1..], gone);
      forall i | 0 <= i < |rest|
        ensures ps[0] < rest[i]
      {
        assert rest[i] in rest;
      }
    }
  }

  lemma KidsBelow(s: State)
    requires Family(s) && Places(s)
    ensures forall p: Pid, c: Pid :: Kid(s, p, c) ==> c < s.lastPid
  { }

  lemma BirthStep(s: State, e: Event)
    requires Inv(s) && Defined(s, e) && InBirthOrder(s) && Exits.Childless(s, e)
    ensures InBirthOrder(Step(s, e))
  {
    StepEnds(s, e);
    CallerApart(s);
    KidsBelow(s);
    EndsBirth(s, e, Step(s, e));
  }

  lemma EndsBirth(s: State, e: Event, t: State)
    requires Ends(s, e, t) && InBirthOrder(s) && s.running.Some? && Cur(s) in s.procs && Exits.Childless(s, e)
    requires forall p: Pid, c: Pid :: Kid(s, p, c) ==> c < s.lastPid
    ensures InBirthOrder(t)
  {
    if e.Trap? && e.call.Exit? {
      ExitBirth(s, t, e.call.value);
    } else if e.Trap? && e.call.Wait? {
      WaitBirth(s, t, e.call.pid, e.call.hasCell);
    } else if e == Trap(Fork) {
      ForkBirth(s, t);
    } else {
      OtherBirth(s, e, t);
    }
  }

  lemma ForkBirth(s: State, t: State)
    requires ForkEnds(s, t) && InBirthOrder(s) && Cur(s) in s.procs
    requires forall p: Pid, c: Pid :: Kid(s, p, c) ==> c < s.lastPid
    ensures InBirthOrder(t)
  {
    assert forall i :: 0 <= i < |Me(s).children| ==> Kid(s, Cur(s), Me(s).children[i]);
  }

  lemma OtherBirth(s: State, e: Event, t: State)
    requires Ends(s, e, t) && InBirthOrder(s) && s.running.Some? && Cur(s) in s.procs
    requires e.Trap? ==> !e.call.Exit? && !e.call.Wait? && !e.call.Fork?
    ensures InBirthOrder(t)
  {
    if e.Trap? && (e.call.Open? || e.call.Close? || e.call.Destroy?) {
      EndsAtOnce(s, e.call, t);
    }
  }

  lemma ExitBirth(s: State, t: State, value: int)
    requires ExitEnds(s, t, value) && InBirthOrder(s) && Me(s).children == []
    ensures InBirthOrder(t)
  {
    forall p | p in t.procs
      ensures Increasing(t.procs[p].children)
    {
      assert Heirs(s, p) == At(s, p).children;
      WithoutIncreasing(Heirs(s, p), [Cur(s)]);
    }
  }

  lemma WaitBirth(s: State, t: State, pid: int, hasCell: bool)
    requires WaitEnds(s, t, pid, hasCell) && InBirthOrder(s) && Cur(s) in s.procs
    ensures InBirthOrder(t)
  {
    if Me(s).children != [] {
      WithoutIncreasing(Me(s).children, [Scan(s, Me(s).children, pid)]);
    }
  }

  lemma {:induction false} BirthOrderStays(s: State, es: seq<Event>)
    requires Inv(s) && ValidRun(s, es) && InBirthOrder(s) && Runs.Along(s, es, Exits.Childless)
    ensures InBirthOrder(Run(s, es))
    decreases |es|
  {
    if es != [] {
      BirthStep(s, es[0]);
      Runs.StepKeeps(s, es[0]);
      BirthOrderStays(Step(s, es[0]), es[1..]);
    }
  }

  /** When processes exit after their children, wait for any child answers with the oldest of the caller's children that have
      exited. */
  lemma OldestFirst(es: seq<Event>, hasCell: bool)
    requires ValidRun(Boot(), es) && Runs.Along(Boot(), es, Exits.Childless)
    requires Defined(Run(Boot(), es), Trap(Wait(0, hasCell)))
    ensures var s := Run(Boot(), es); var t := Step(s, Trap(Wait(0, hasCell)));
      forall c :: Kid(s, Cur(s), c) && Exits.IsZombie(s, c) ==>
        t.running == s.running && 0 <= Me(t).ret <= c && Exits.IsZombie(s, Me(t).ret) && Kid(s, Cur(s), Me(t).ret)
  {
    BirthOrderFromBoot(es);
    OldestReported(Run(Boot(), es), hasCell);
  }

  lemma BirthOrderFromBoot(es: seq<Event>)
    requires ValidRun(Boot(), es) && Runs.Along(Boot(), es, Exits.Childless)
    ensures Inv(Run(Boot(), es)) && InBirthOrder(Run(Boot(), es))
  {
    BootInv();
    BootBirth();
    Runs.RunKeeps(Boot(), es);
    BirthOrderStays(Boot(), es);
  }

  lemma BootBirth()
    ensures InBirthOrder(Boot())
  { }

  lemma OldestReported(s: State, hasCell: bool)
    requires Inv(s) && InBirthOrder(s) && Defined(s, Trap(Wait(0, hasCell)))
    ensures var t := Step(s, Trap(Wait(0, hasCell)));
      forall c :: Kid(s, Cur(s), c) && Exits.IsZombie(s, c) ==>
        t.running == s.running && 0 <= Me(t).ret <= c && Exits.IsZombie(s, Me(t).ret) && Kid(s, Cur(s), Me(t).ret)
  {
    var kids := Me(s).children;
    WaitOutcome(s, 0, hasCell);
    CallerApart(s);
    if kids != [] {
      var i := Processes.ScanFirst(s, kids);
      FirstIsOldest(s, kids, i);
    }
  }

  lemma FirstIsOldest(s: State, kids: seq<Pid>, i: nat)
    requires Increasing(kids) && i < |kids| && forall j :: 0 <= j < i ==> At(s, kids[j]).status != Zombie
    requires At(s, kids[i]).status == Zombie || i == |kids| - 1
    ensures forall c :: c in kids && Exits.IsZombie(s, c) ==> kids[i] <= c && At(s, kids[i]).status == Zombie
  { }
}
