/** Queues: conservation and order of items, the true bound on a queue's length, exactly when it exceeds the capacity,
    and no use of a released queue. */
module KernelQueues {
  import opened Selection
  import opened KernelState
  import opened KernelSteps
  import opened KernelMachine
  import opened KernelInvariant
  import opened KernelPrimitives
  import opened KernelSafety
  import opened KernelProgress
  import opened KernelWakeup

  /** After every run from boot, for every queue: each accepted item was received once, discarded by a reset or
      deletion, or is still queued; with back sends only and nothing discarded the received items followed by the queued
      ones are the accepted ones in order; the length and the senders woken but not yet resumed stay within the capacity
      plus the number of scheduler tasks; and a released queue was deleted and has no task left inside a call. */
  lemma QueuesConserve(start: Kernel, run: seq<Step>, q: nat)
    requires Initial(start) && IsRun(start, run) && q < |After(start, run).queues|
    ensures var k := After(start, run); var x := k.queues[q];
            && multiset(x.accepted) == multiset(x.received) + multiset(x.discarded) + multiset(x.items)
            && (!x.fronted && x.discarded == [] ==> x.accepted == x.received + x.items)
            && |x.items| + |WokenSenders(k, q)| <= x.capacity + (|k.tasks| - 1)
            && (x.deleted ==> x.items == [])
            && (x.freed ==> x.deleted && Users(k, q) == {})
  {
    Reachable(start, run);
    assert QueueOk(After(start, run), q);
  }

  // ----- the contents after each step

  predicate SameItems(x: Queue, y: Queue) {
    && y.items == x.items && y.capacity == x.capacity && y.deleted == x.deleted
    && y.accepted == x.accepted && y.received == x.received && y.discarded == x.discarded
  }

  lemma PublishItems(k: Kernel, th: Thread, q: nat, kind: WaitKind)
    requires IsThread(k, th)
    ensures |Publish(k, th, q, kind).queues| == |k.queues|
    ensures forall p :: 0 <= p < |k.queues| ==> SameItems(k.queues[p], Publish(k, th, q, kind).queues[p])
  {
    var released := ReleaseQueueWaiter(k, q, kind);
    PreemptItems(Dispatch(released), th, Some(q));
  }

  lemma PreemptItems(k: Kernel, th: Thread, use: Option<nat>)
    requires IsThread(k, th)
    ensures |Preempt(k, th, use).queues| == |k.queues|
    ensures forall p :: 0 <= p < |k.queues| ==> SameItems(k.queues[p], Preempt(k, th, use).queues[p])
  {
  }

  lemma WaitOnItems(k: Kernel, c: nat, op: Op, ticks: nat)
    requires c < |k.tasks|
    ensures |WaitOn(k, c, op, ticks).queues| == |k.queues|
    ensures forall p :: 0 <= p < |k.queues| ==> SameItems(k.queues[p], WaitOn(k, c, op, ticks).queues[p])
  {
    var timed := op.DelayOp? || ticks != MAX_DELAY;
    var blocked := BlockOn(k, c, KindOf(op), QueueOf(op), timed, ticks, Wait(op));
    assert blocked.queues == k.queues && PassThrough(k, c, op, ticks, Code).queues == k.queues;
    hide BlockOn, PassThrough, NextRunnable;
  }

  lemma SendItems(k: Kernel, s: Step, q: nat)
    requires s.DoSend? && Enabled(k, s) && q < |k.queues|
    ensures q < |Next(k, s).queues|
    ensures |k.queues[q].items| <= k.queues[q].capacity ==> |Next(k, s).queues[q].items| <= k.queues[q].capacity
  {
    hide WaitOn, Publish;
    var DoSend(th, p, item, front, ticks) := s;
    if th.Worker? { WaitOnItems(k, th.id, SendOp(p, item, front), ticks); }
    PublishItems(Push(k, p, item, front), th, p, Receiving);
  }

  lemma ReceiveItems(k: Kernel, s: Step, q: nat)
    requires s.DoReceive? && Enabled(k, s) && q < |k.queues|
    ensures q < |Next(k, s).queues| && |Next(k, s).queues[q].items| <= |k.queues[q].items|
  {
    var DoReceive(th, p, ticks) := s;
    if th.Worker? { WaitOnItems(k, th.id, ReceiveOp(p), ticks); }
    if k.queues[p].items != [] { PublishItems(Pop(k, p), th, p, Sending); }
    hide WaitOn, Publish;
  }

  /** The resumed sender pushes whatever the queue holds by then. */
  predicate PushesOnResume(k: Kernel, c: nat, q: nat) {
    && c < |k.tasks| && q < |k.queues| && WokenSender(k.tasks[c], q) && !StoppingThread(k, Worker(c))
       && !k.queues[q].deleted
  }

  lemma ResumeItems(k: Kernel, c: nat, q: nat)
    requires Enabled(k, DoResume(c)) && q < |k.queues|
    ensures q < |Resume(k, c).queues|
    ensures if PushesOnResume(k, c, q) then |Resume(k, c).queues[q].items| == |k.queues[q].items| + 1
            else |Resume(k, c).queues[q].items| <= |k.queues[q].items|
  {
    var woken := Dispatch(Awaken(k, c));
    AwakenItems(k, c);
    hide Publish, Awaken, Dispatch, Consume;
    match k.tasks[c].pc.op
    case SendOp(p, item, front) =>
      if p < |woken.queues| { PublishItems(Push(woken, p, item, front), Worker(c), p, Receiving); }
    case ReceiveOp(p) =>
      if p < |woken.queues| && woken.queues[p].items != [] { PublishItems(Pop(woken, p), Worker(c), p, Sending); }
    case TakeOp(clear) => if woken.tasks[c].notes.count > 0 { ConsumeItems(woken, c, clear); }
    case DelayOp =>
  }

  lemma ConsumeItems(k: Kernel, c: nat, clear: bool)
    requires c < |k.tasks| && k.tasks[c].notes.count > 0
    ensures Consume(k, c, clear).queues == k.queues
  {
  }

  lemma AwakenItems(k: Kernel, c: nat)
    requires c < |k.tasks| && k.tasks[c].pc.Wait?
    ensures |Dispatch(Awaken(k, c)).queues| == |k.queues| && |Dispatch(Awaken(k, c)).tasks| == |k.tasks|
    ensures forall p :: 0 <= p < |k.queues| ==> SameItems(k.queues[p], Dispatch(Awaken(k, c)).queues[p])
  {
  }

  lemma ClearItems(k: Kernel, s: Step, q: nat)
    requires KernelOk(k) && (s.DoResetQueue? || s.DoDeleteQueue?) && Enabled(k, s) && q < |k.queues|
    ensures q < |Next(k, s).queues| && |Next(k, s).queues[q].items| <= |k.queues[q].items|
  {
    hide KernelOk, ResetQueue, DeleteQueue;
    match s
    case DoResetQueue(th, p) => ResetItems(k, th, p, q);
    case DoDeleteQueue(th, p) => DeleteItems(k, th, p);
  }

  lemma ResetItems(k: Kernel, th: Thread, p: nat, q: nat)
    requires IsThread(k, th) && p < |k.queues| && q < |k.queues|
    ensures q < |ResetQueue(k, th, p).queues| && |ResetQueue(k, th, p).queues[q].items| <= |k.queues[q].items|
  {
    var x := k.queues[p];
    hide Publish;
    PublishItems(SetQueue(k, p, x.(items := [], discarded := x.discarded + x.items)), th, p, Sending);
  }

  lemma DeleteItems(k: Kernel, th: Thread, p: nat)
    requires IsThread(k, th) && p < |k.queues|
    ensures |DeleteQueue(k, th, p).queues| == |k.queues|
    ensures forall q :: 0 <= q < |k.queues| ==> |DeleteQueue(k, th, p).queues[q].items| <= |k.queues[q].items|
  {
    var gone := Dispatch(ReleaseAllOn(MarkDeleted(k, p, th), p));
    assert gone.queues == MarkDeleted(k, p, th).queues && |gone.tasks| == |k.tasks| && gone.hosts == k.hosts;
    DrainItems(gone, th, p);
    hide DrainBy, ReleaseAllOn;
  }

  lemma DrainItems(k: Kernel, th: Thread, p: nat)
    requires IsThread(k, th)
    ensures DrainBy(k, th, p).queues == k.queues
  {
  }

  // ----- when the capacity is exceeded

  /** A queue within its capacity is pushed beyond it by one kind of step only: a sender that was woken when there was
      room resumes after another sender took the room. */
  lemma CapacityExceededIff(k: Kernel, s: Step, q: nat)
    requires KernelOk(k) && Enabled(k, s) && q < |k.queues| && |k.queues[q].items| <= k.queues[q].capacity
    ensures q < |Next(k, s).queues|
    ensures |Next(k, s).queues[q].items| > k.queues[q].capacity <==>
              s.DoResume? && PushesOnResume(k, s.c, q) && |k.queues[q].items| == k.queues[q].capacity
  {
    hide KernelOk, Onward, Next, Enabled, PushesOnResume;
    StepOnward(k, s);
    match s
    case DoSend(_, _, _, _, _) => SendItems(k, s, q);
    case DoReceive(_, _, _) => ReceiveItems(k, s, q);
    case DoResume(c) => ResumeStepItems(k, s, q);
    case DoResetQueue(_, _) => ClearItems(k, s, q);
    case DoDeleteQueue(_, _) => ClearItems(k, s, q);
    case _ => KeptItems(k, s, q);
  }

  lemma ResumeStepItems(k: Kernel, s: Step, q: nat)
    requires s.DoResume? && Enabled(k, s) && q < |k.queues|
    ensures q < |Next(k, s).queues|
    ensures if PushesOnResume(k, s.c, q) then |Next(k, s).queues[q].items| == |k.queues[q].items| + 1
            else |Next(k, s).queues[q].items| <= |k.queues[q].items|
  {
    hide PushesOnResume, Resume;
    ResumeItems(k, s.c, q);
  }

  lemma KeptItems(k: Kernel, s: Step, q: nat)
    requires Enabled(k, s) && Onward(k, Next(k, s), ScopeOf(s)) && !ScopeOf(s).contents && q < |k.queues|
    ensures q < |Next(k, s).queues| && Next(k, s).queues[q].items == k.queues[q].items
  {
    hide Enabled, Next;
    assert QueueOnward(k.queues[q], Next(k, s).queues[q], false);
  }

  ghost predicate WithinCapacity(k: Kernel) {
    forall q {:trigger k.queues[q]} :: 0 <= q < |k.queues| ==> |k.queues[q].items| <= k.queues[q].capacity
  }

  // ----- the kernel with the missing check

  /** The step is a resumed sender's push onto a queue that was filled meanwhile. */
  predicate Overfills(k: Kernel, s: Step) {
    && s.DoResume? && s.c < |k.tasks| && k.tasks[s.c].pc.Wait? && k.tasks[s.c].pc.op.SendOp?
    && var q := k.tasks[s.c].pc.op.queue;
       PushesOnResume(k, s.c, q) && |k.queues[q].items| >= k.queues[q].capacity
  }

  /** The corrected kernel: a resumed sender that finds the queue full leaves its call without pushing. */
  ghost function NextRetested(k: Kernel, s: Step): Kernel
    requires Enabled(k, s)
  {
    if Overfills(k, s) then Dispatch(Awaken(k, s.c)) else Next(k, s)
  }

  ghost predicate IsRetestedRun(k: Kernel, run: seq<Step>)
    decreases |run|
  {
    run == [] || (Enabled(k, run[0]) && IsRetestedRun(NextRetested(k, run[0]), run[1..]))
  }

  ghost function AfterRetested(k: Kernel, run: seq<Step>): Kernel
    requires IsRetestedRun(k, run)
    decreases |run|
  {
    if run == [] then k else AfterRetested(NextRetested(k, run[0]), run[1..])
  }

  lemma RetestedKeeps(k: Kernel, s: Step)
    requires KernelOk(k) && WithinCapacity(k) && Enabled(k, s)
    ensures KernelOk(NextRetested(k, s)) && WithinCapacity(NextRetested(k, s))
  {
    if Overfills(k, s) {
      hide KernelOk, Dispatch, Awaken;
      AwakenKeeps(k, s.c);
      DispatchKeeps(Awaken(k, s.c));
      AwakenItems(k, s.c);
    } else {
      StepKeeps(k, s);
      FittingStepFits(k, s);
    }
  }

  lemma FittingStepFits(k: Kernel, s: Step)
    requires KernelOk(k) && WithinCapacity(k) && Enabled(k, s) && !Overfills(k, s)
    ensures WithinCapacity(Next(k, s))
  {
    var r := Next(k, s);
    StepOnward(k, s);
    hide KernelOk, Next, Enabled;
    forall q | 0 <= q < |r.queues| ensures |r.queues[q].items| <= r.queues[q].capacity {
      if q < |k.queues| {
        CapacityExceededIff(k, s, q);
        assert QueueOnward(k.queues[q], r.queues[q], ScopeOf(s).contents);
      }
    }
  }

  /** With the re-test, no queue ever exceeds its capacity: after every run of the corrected kernel from boot. */
  lemma RetestedRunsFit(start: Kernel, run: seq<Step>)
    requires Initial(start) && IsRetestedRun(start, run)
    ensures KernelOk(AfterRetested(start, run)) && WithinCapacity(AfterRetested(start, run))
  {
    InitialOk(start);
    RetestedRunKeeps(start, run);
  }

  lemma {:induction false} RetestedRunKeeps(k: Kernel, run: seq<Step>)
    requires KernelOk(k) && WithinCapacity(k) && IsRetestedRun(k, run)
    ensures KernelOk(AfterRetested(k, run)) && WithinCapacity(AfterRetested(k, run))
    decreases |run|
  {
    hide KernelOk, WithinCapacity, NextRetested;
    if run != [] {
      RetestedKeeps(k, run[0]);
      RetestedRunKeeps(NextRetested(k, run[0]), run[1..]);
    }
  }

  /** No queue exceeds its capacity before the run or after any of its steps. */
  ghost predicate WithinThroughout(k: Kernel, run: seq<Step>)
    requires IsRun(k, run)
    decreases |run|
  {
    WithinCapacity(k) && (run == [] || WithinThroughout(Next(k, run[0]), run[1..]))
  }

  /** No step of the run overfills a queue. */
  ghost predicate NeverOverfills(k: Kernel, run: seq<Step>)
    requires IsRun(k, run)
    decreases |run|
  {
    run == [] || (!Overfills(k, run[0]) && NeverOverfills(Next(k, run[0]), run[1..]))
  }

  /** The kernel as it is keeps to the capacity throughout a run exactly if the re-test would never refuse a push in it;
      such a run is one of the corrected kernel, with the same end. */
  lemma {:induction false} CapacityKeptIff(k: Kernel, run: seq<Step>)
    requires KernelOk(k) && WithinCapacity(k) && IsRun(k, run)
    ensures WithinThroughout(k, run) <==> NeverOverfills(k, run)
    ensures NeverOverfills(k, run) ==> IsRetestedRun(k, run) && AfterRetested(k, run) == After(k, run)
    decreases |run|
  {
    hide KernelOk, WithinCapacity, Overfills;
    if run != [] {
      StepKeeps(k, run[0]);
      if Overfills(k, run[0]) {
        OverfillingStep(k, run[0]);
      } else {
        FittingStepFits(k, run[0]);
        CapacityKeptIff(Next(k, run[0]), run[1..]);
      }
    }
  }

  lemma OverfillingStep(k: Kernel, s: Step)
    requires KernelOk(k) && WithinCapacity(k) && Enabled(k, s) && Overfills(k, s)
    ensures !WithinCapacity(Next(k, s)) && forall rest | IsRun(Next(k, s), rest) :: !WithinThroughout(Next(k, s), rest)
  {
    var q := k.tasks[s.c].pc.op.queue;
    StepOnward(k, s);
    CapacityExceededIff(k, s, q);
    assert QueueOnward(k.queues[q], Next(k, s).queues[q], ScopeOf(s).contents);
  }
}
