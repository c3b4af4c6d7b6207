/** What goes through a message queue over a whole run. */
module Fifo {
  import opened Machine
  import opened Invariants
  import Runs

  function Messages(s: State, id: int): seq<Message> {
    QueueAt(s, id).messages
  }

  /** The caller of e still runs after it and was given no error. */
  predicate Succeeds(s: State, e: Event) {
    Step(s, e).running == s.running && Me(Step(s, e)).ret >= 0
  }

  /** What a successful write to queue id put in. */
  function Sent(s: State, e: Event, id: int): seq<Message> {
    if e.Trap? && e.call.Write? && e.call.id == id && Succeeds(s, e) then [e.call.data] else []
  }

  /** What a successful read of queue id copied to its caller. */
  function Received(s: State, e: Event, id: int): seq<Message> {
    if e.Trap? && e.call.Read? && e.call.id == id && Succeeds(s, e) then
      match Copied(Enter(s, e.call), id, e.call.room)
      case Some(m) => [m]
      case None => []
    else []
  }

  function SentAlong(s: State, es: seq<Event>, id: int): seq<Message>
    decreases |es|
  {
    if es == [] then [] else Sent(s, es[0], id) + SentAlong(Step(s, es[0]), es[1..], id)
  }

  function ReceivedAlong(s: State, es: seq<Event>, id: int): seq<Message>
    decreases |es|
  {
    if es == [] then [] else Received(s, es[0], id) + ReceivedAlong(Step(s, es[0]), es[1..], id)
  }

  /** e destroys queue id with messages in it. */
  predicate Drops(s: State, e: Event, id: int) {
    e == Trap(Destroy(id)) && id in s.queues && s.queues[id].entries == [] && s.queues[id].messages != []
  }

  lemma ReadLaw(s: State, id: int, room: int)
    requires s.running.Some? && Cur(s) !in s.ready && (TakesNext(s, Read(id, room)) ==> s.ready != [])
    ensures var t := DoRead(s, id, room);
      var got := t.running == s.running && Me(t).ret >= 0;
      && (forall i :: i != id ==> Messages(t, i) == Messages(s, i))
      && (got ==> Copied(s, id, room).Some? && Me(t).ret == |Copied(s, id, room).value|)
      && (if got then [Copied(s, id, room).value] else []) + Messages(t, id) == Messages(s, id)
  { }

  /** The calls that are neither reads nor writes touch no message, except that a destroyed queue loses its own. */
  lemma OthersLaw(s: State, c: Call, id: int)
    requires !c.Write? && !c.Read?
    ensures Messages(Perform(s, c), id) ==
              if c == Destroy(id) && id in s.queues && s.queues[id].entries == [] then [] else Messages(s, id)
    ensures Perform(s, c).msgFree == s.msgFree
  {
    match c
    case Open(i, mode) => OpenLaw(s, i, mode, id);
    case Exit(v) => ExitLaw(s, v, id);
    case Close(fd) => CloseLaw(s, fd, id);
    case Wait(pid, hasCell) => WaitLaw(s, pid, hasCell, id);
    case _ =>
  }

  lemma OpenLaw(s: State, i: int, mode: int, id: int)
    ensures Messages(DoOpen(s, i, mode), id) == Messages(s, id) && DoOpen(s, i, mode).msgFree == s.msgFree
  { }

  lemma ExitLaw(s: State, v: int, id: int)
    ensures Messages(DoExit(s, v), id) == Messages(s, id) && DoExit(s, v).msgFree == s.msgFree
  { }

  lemma CloseLaw(s: State, fd: int, id: int)
    ensures Messages(DoClose(s, fd), id) == Messages(s, id) && DoClose(s, fd).msgFree == s.msgFree
  { }

  lemma WaitLaw(s: State, pid: int, hasCell: bool, id: int)
    ensures Messages(DoWait(s, pid, hasCell), id) == Messages(s, id) && DoWait(s, pid, hasCell).msgFree == s.msgFree
  { }

  lemma FifoWrite(s: State, i: int, data: Message, id: int)
    requires Cur(s) !in s.ready && Defined(s, Trap(Write(i, data)))
    ensures var e := Trap(Write(i, data));
      && Messages(s, id) + Sent(s, e, id) == Received(s, e, id) + Messages(Step(s, e), id)
      && Step(s, e).msgFree == s.msgFree - Accepted(s, e)
  { }

  lemma FifoRead(s: State, i: int, room: int, id: int)
    requires Cur(s) !in s.ready && Defined(s, Trap(Read(i, room)))
    ensures var e := Trap(Read(i, room));
      && Messages(s, id) + Sent(s, e, id) == Received(s, e, id) + Messages(Step(s, e), id)
  {
    var u := Enter(s, Read(i, room));
    ReadLaw(u, i, room);
  }

  lemma FifoOther(s: State, c: Call, id: int)
    requires !c.Write? && !c.Read?
    ensures var e := Trap(c);
      && Sent(s, e, id) == [] && Received(s, e, id) == []
      && (Messages(s, id) == Messages(Step(s, e), id) <==> !Drops(s, e, id))
  {
    OthersLaw(Enter(s, c), c, id);
  }

  lemma FifoTrap(s: State, c: Call, id: int)
    requires Cur(s) !in s.ready && Defined(s, Trap(c))
    ensures var e := Trap(c);
      Messages(s, id) + Sent(s, e, id) == Received(s, e, id) + Messages(Step(s, e), id) <==> !Drops(s, e, id)
  {
    match c
    case Write(i, data) => FifoWrite(s, i, data, id);
    case Read(i, room) => FifoRead(s, i, room, id);
    case _ =>
      FifoOther(s, c, id);
      Units(Messages(s, id), Messages(Step(s, Trap(c)), id));
  }

  lemma Units<T>(a: seq<T>, b: seq<T>)
    ensures a + [] == a && [] + b == b
  { }

  /** One step: what was there and what went in is what came out and what is there, if and only if the step does not
      destroy the queue with messages in it. */
  lemma FifoStep(s: State, e: Event, id: int)
    requires Inv(s) && Defined(s, e)
    ensures Messages(s, id) + Sent(s, e, id) == Received(s, e, id) + Messages(Step(s, e), id) <==> !Drops(s, e, id)
  {
    match e
    case Interrupt => FifoTick(s, id);
    case Trap(c) => FifoTrap(s, c, id);
  }

  lemma FifoTick(s: State, id: int)
    ensures Messages(s, id) + Sent(s, Interrupt, id) == Received(s, Interrupt, id) + Messages(Step(s, Interrupt), id)
  { }

  lemma Chain<T>(m0: seq<T>, in1: seq<T>, out1: seq<T>, m1: seq<T>, in2: seq<T>, out2: seq<T>, m2: seq<T>)
    requires m0 + in1 == out1 + m1 && m1 + in2 == out2 + m2
    ensures m0 + (in1 + in2) == (out1 + out2) + m2
  {
    assert m0 + (in1 + in2) == (m0 + in1) + in2 == out1 + (m1 + in2);
  }

  /** FIFO delivery: over any run in which the queue is not destroyed with messages in it, the messages queued at the start
      and then those of all successful writes, in order, are those of all successful reads, in order, and then those
      queued at the end. Calls that blocked or were refused contribute nothing. */
  lemma {:induction false} FifoDelivery(s: State, es: seq<Event>, id: int)
    requires Inv(s) && ValidRun(s, es) && Runs.Along(s, es, (x, e) => !Drops(x, e, id))
    ensures Messages(s, id) + SentAlong(s, es, id) == ReceivedAlong(s, es, id) + Messages(Run(s, es), id)
    decreases |es|
  {
    if es != [] {
      var t, e, rest := Step(s, es[0]), es[0], es[1..];
      FifoStep(s, e, id);
      Runs.StepKeeps(s, e);
      FifoDelivery(t, rest, id);
      Chain(Messages(s, id), Sent(s, e, id), Received(s, e, id), Messages(t, id),
            SentAlong(t, rest, id), ReceivedAlong(t, rest, id), Messages(Run(t, rest), id));
    }
  }

  /** From the start, where every queue is empty: what was read is a prefix of what was written. */
  lemma ReadIsPrefixOfWritten(es: seq<Event>, id: int)
    requires ValidRun(Boot(), es) && Runs.Along(Boot(), es, (x, e) => !Drops(x, e, id))
    ensures ReceivedAlong(Boot(), es, id) <= SentAlong(Boot(), es, id)
  {
    BootInv();
    FifoDelivery(Boot(), es, id);
    assert Messages(Boot(), id) + SentAlong(Boot(), es, id) == SentAlong(Boot(), es, id);
  }

  // ----- the message blocks

  function Accepted(s: State, e: Event): nat {
    if e.Trap? && e.call.Write? && Succeeds(s, e) then 1 else 0
  }

  function AcceptedAlong(s: State, es: seq<Event>): nat
    decreases |es|
  {
    if es == [] then 0 else Accepted(s, es[0]) + AcceptedAlong(Step(s, es[0]), es[1..])
  }

  /** Reading never gives a message block back, so the writes accepted over the whole life of the system are limited by the
      pool. */
  lemma {:induction false} MessageBlocksLeak(s: State, es: seq<Event>)
    requires Inv(s) && ValidRun(s, es)
    ensures Run(s, es).msgFree == s.msgFree - AcceptedAlong(s, es)
    ensures s.msgFree >= 0 ==> AcceptedAlong(s, es) <= s.msgFree
    decreases |es|
  {
    if es != [] {
      MessageBlockStep(s, es[0]);
      Runs.StepKeeps(s, es[0]);
      MessageBlocksLeak(Step(s, es[0]), es[1..]);
    }
  }

  /** From the start: the system accepts at most 327680 writes in its life. */
  lemma LifetimeOfWrites(es: seq<Event>)
    requires ValidRun(Boot(), es)
    ensures AcceptedAlong(Boot(), es) + Run(Boot(), es).msgFree == 327680 && Run(Boot(), es).msgFree >= 0
  {
    BootInv();
    MessageBlocksLeak(Boot(), es);
  }

  lemma MessageBlockStep(s: State, e: Event)
    requires Inv(s) && Defined(s, e)
    ensures Step(s, e).msgFree == s.msgFree - Accepted(s, e)
    ensures s.msgFree >= 0 ==> Step(s, e).msgFree >= 0
  {
    if e.Trap? {
      if e.call.Write? {
        FifoWrite(s, e.call.id, e.call.data, 0);
        if s.msgFree >= 0 {
          LastBlock(s, e.call.id, e.call.data);
        }
      } else if e.call.Read? {
        ReadTakesNoBlock(s, e.call);
      } else {
        OthersLaw(Enter(s, e.call), e.call, 0);
      }
    }
  }

  lemma ReadTakesNoBlock(s: State, c: Call)
    requires c.Read?
    ensures Step(s, Trap(c)).msgFree == s.msgFree
  { }

  lemma LastBlock(s: State, id: int, data: Message)
    requires Defined(s, Trap(Write(id, data))) && s.msgFree >= 0
    ensures Step(s, Trap(Write(id, data))).msgFree >= 0
  { }
}
