/** Queue, notification and delay steps keep the invariant. */
module QueueSafety {
  import opened Selection
  import opened KernelState
  import opened KernelSteps
  import opened KernelMachine
  import opened KernelInvariant
  import opened KernelPrimitives

  // ----- queues

  lemma SendKeeps(k: Kernel, s: Step)
    requires KernelOk(k) && s.DoSend? && Enabled(k, s)
    ensures KernelOk(Next(k, s))
  {
    hide KernelOk;
    var DoSend(th, q, item, front, ticks) := s;
    var x := k.queues[q];
    if !(x.deleted || |x.items| < x.capacity) && ticks != 0 {
      WaitOnKeeps(k, th.id, SendOp(q, item, front), ticks);
    } else if !StoppingThread(k, th) && !x.deleted && |x.items| < x.capacity {
      RoomIsSlack(k, q);
      PushKeeps(k, q, item, front);
      PublishKeeps(Push(k, q, item, front), th, q, Receiving);
    }
  }

  lemma RoomIsSlack(k: Kernel, q: nat)
    requires KernelOk(k) && q < |k.queues| && |k.queues[q].items| < k.queues[q].capacity
    ensures Slack(k, q)
  {
    SendersBounded(k, q);
  }

  lemma WaitOnKeeps(k: Kernel, c: nat, op: Op, ticks: nat)
    requires KernelOk(k) && 0 < c < |k.tasks| && k.tasks[c].pc == Code
    requires CanEnter(k, QueueOf(op)) && (op.TakeOp? ==> k.tasks[c].notes.count == 0)
    ensures KernelOk(WaitOn(k, c, op, ticks))
  {
    hide KernelOk;
    if StoppingThread(k, Worker(c)) {
      PassThroughKeeps(k, c, op, ticks, Code);
      DispatchKeeps(PassThrough(k, c, op, ticks, Code));
    } else {
      BlockInKeeps(k, c, op, ticks);
      DispatchKeeps(BlockIn(k, c, op, ticks));
    }
  }

  lemma ReceiveKeeps(k: Kernel, s: Step)
    requires KernelOk(k) && s.DoReceive? && Enabled(k, s)
    ensures KernelOk(Next(k, s))
  {
    hide KernelOk;
    var DoReceive(th, q, ticks) := s;
    var x := k.queues[q];
    if !x.deleted && x.items == [] && ticks != 0 {
      WaitOnKeeps(k, th.id, ReceiveOp(q), ticks);
    } else if !StoppingThread(k, th) && !x.deleted && x.items != [] {
      PopKeeps(k, q);
      PublishKeeps(Pop(k, q), th, q, Sending);
    }
  }

  lemma ResumeKeeps(k: Kernel, c: nat)
    requires KernelOk(k) && Enabled(k, DoResume(c))
    ensures KernelOk(Resume(k, c))
  {
    hide KernelOk;
    Facts(k, c);
    AwakenKeeps(k, c);
    DispatchKeeps(Awaken(k, c));
    var woken := Dispatch(Awaken(k, c));
    if !StoppingThread(k, Worker(c)) {
      match k.tasks[c].pc.op
      case SendOp(q, item, front) =>
        if !woken.queues[q].deleted && k.tasks[c].wait.result == Ready {
          AwakenSlack(k, c);
          PushKeeps(woken, q, item, front);
          PublishKeeps(Push(woken, q, item, front), Worker(c), q, Receiving);
        }
      case ReceiveOp(q) =>
        if !woken.queues[q].deleted && k.tasks[c].wait.result == Ready && woken.queues[q].items != [] {
          PopKeeps(woken, q);
          PublishKeeps(Pop(woken, q), Worker(c), q, Sending);
        }
      case TakeOp(clear) =>
        if woken.tasks[c].notes.count != 0 { ConsumeKeeps(woken, c, clear); }
      case DelayOp =>
    }
  }

  /** A released sender that resumes makes room for the item it is about to push. */
  lemma AwakenSlack(k: Kernel, c: nat)
    requires KernelOk(k) && 0 < c < |k.tasks| && k.tasks[c].pc.Wait? && k.tasks[c].pc.op.SendOp?
             && k.tasks[c].wait.result == Ready
    requires k.tasks[c].pc.op.queue < |k.queues|
    ensures Slack(Dispatch(Awaken(k, c)), k.tasks[c].pc.op.queue)
  {
    var q := k.tasks[c].pc.op.queue;
    assert QueueOk(k, q);
    var woken := Dispatch(Awaken(k, c));
    assert WokenSenders(woken, q) <= WokenSenders(k, q) - {c};
    assert c in WokenSenders(k, q);
    SubsetCount(WokenSenders(woken, q), WokenSenders(k, q) - {c});
  }

  lemma ConsumeKeeps(k: Kernel, c: nat, clear: bool)
    requires KernelOk(k) && c < |k.tasks| && k.tasks[c].pc == Code && k.tasks[c].notes.count > 0
    ensures KernelOk(Consume(k, c, clear))
  {
    hide KernelOk;
    Facts(k, c);
    OnlyTaskKeeps(k, Consume(k, c, clear), c);
  }

  lemma TakeKeeps(k: Kernel, s: Step)
    requires KernelOk(k) && s.DoTake? && Enabled(k, s)
    ensures KernelOk(Next(k, s))
  {
    hide KernelOk;
    if k.tasks[s.c].notes.count == 0 && s.ticks != 0 {
      WaitOnKeeps(k, s.c, TakeOp(s.clear), s.ticks);
    } else if k.tasks[s.c].notes.count != 0 {
      ConsumeKeeps(k, s.c, s.clear);
    }
  }

  lemma GivenTaskOk(t: Task)
    requires WaitOk(t) && CountOk(t) && LifeOk(t)
    ensures WaitOk(GivenTask(t)) && CountOk(GivenTask(t)) && LifeOk(GivenTask(t))
  {
    var n := t.notes.count;
    assert n + 1 == (n + 1) % TICKS_WRAP + TICKS_WRAP * ((n + 1) / TICKS_WRAP);
  }

  lemma GiveKeeps(k: Kernel, th: Thread, target: nat)
    requires KernelOk(k) && Calls(k, th) && 0 < target < |k.tasks|
    ensures KernelOk(Give(k, th, target))
  {
    hide KernelOk;
    Facts(k, target);
    GivenTaskOk(k.tasks[target]);
    var counted := SetTask(k, target, GivenTask(k.tasks[target]));
    OnlyTaskKeeps(k, counted, target);
    DispatchKeeps(counted);
    PreemptKeeps(Dispatch(counted), th, None);
  }

  lemma DelayKeeps(k: Kernel, s: Step)
    requires KernelOk(k) && s.DoDelay? && Enabled(k, s)
    ensures KernelOk(Next(k, s))
  {
    hide KernelOk, NextRunnable;
    var DoDelay(c, ticks) := s;
    if ticks == 0 {
      RequeueKeeps(k, GiveUpTurn(k, c), c, Turn(None));
    } else if StoppingThread(k, Worker(c)) {
      PassThroughKeeps(k, c, DelayOp, ticks, Turn(None));
      DispatchKeeps(PassThrough(k, c, DelayOp, ticks, Turn(None)));
    } else {
      BlockInKeeps(k, c, DelayOp, ticks);
      DispatchKeeps(BlockIn(k, c, DelayOp, ticks));
      DelayEndsKeeps(k, c, ticks);
    }
  }

  lemma DelayEndsKeeps(k: Kernel, c: nat, ticks: nat)
    requires 0 < c < |k.tasks| && k.tasks[c].pc == Code && KernelOk(Dispatch(BlockIn(k, c, DelayOp, ticks)))
    ensures KernelOk(Dispatch(Unblock(Dispatch(BlockIn(k, c, DelayOp, ticks)), c, Turn(None))))
  {
    hide KernelOk, NextRunnable;
    var blocked := Dispatch(BlockIn(k, c, DelayOp, ticks));
    assert blocked.tasks[c].blocked && blocked.tasks[c].pc == Wait(DelayOp);
    hide BlockIn, Dispatch;
    Facts(blocked, c);
    OnlyTaskKeeps(blocked, Unblock(blocked, c, Turn(None)), c);
    DispatchKeeps(Unblock(blocked, c, Turn(None)));
  }

  predicate MayRequeue(k: Kernel, c: nat, pc: Pc)
    requires c < |k.tasks|
  {
    || (k.tasks[c].pc == Code && pc == Turn(None))
    || (k.tasks[c].pc.Drain? && pc.DrainTurn? && DrainPcOk(k, Worker(c), pc))
  }

  lemma QueueUpTask(k: Kernel, raised: Kernel, c: nat, pc: Pc)
    requires c < |k.tasks| && MayRequeue(k, c, pc) && TaskOk(k, c) && (raised == k || raised == GiveUpTurn(k, c))
    ensures TaskOk(QueueUp(raised, c, pc), c)
    ensures StampsStep(k, QueueUp(raised, c, pc), c) && SameElsewhere(k, QueueUp(raised, c, pc), c)
  {
  }

  lemma QueueUpKeeps(k: Kernel, raised: Kernel, c: nat, pc: Pc)
    requires KernelOk(k) && c < |k.tasks| && MayRequeue(k, c, pc) && (raised == k || raised == GiveUpTurn(k, c))
    ensures KernelOk(QueueUp(raised, c, pc))
  {
    hide KernelOk, TaskOk, StampsStep, SameElsewhere;
    Facts(k, c);
    QueueUpTask(k, raised, c, pc);
    MoveKeeps(k, QueueUp(raised, c, pc), c);
  }

  /** `c` queues up for the turn, having given it away if it had it. */
  lemma RequeueKeeps(k: Kernel, raised: Kernel, c: nat, pc: Pc)
    requires KernelOk(k) && c < |k.tasks| && MayRequeue(k, c, pc) && (raised == k || raised == GiveUpTurn(k, c))
    ensures KernelOk(Requeue(raised, c, pc))
  {
    hide KernelOk;
    QueueUpKeeps(k, raised, c, pc);
    var queued := QueueUp(raised, c, pc);
    DispatchKeeps(queued);
    UnparkKeeps(Dispatch(queued), c);
    DispatchKeeps(Unpark(Dispatch(queued), c));
  }

  lemma UnparkKeeps(k: Kernel, c: nat)
    requires KernelOk(k) && c < |k.tasks| && !Executing(k.tasks[c].pc)
    ensures KernelOk(Unpark(k, c))
  {
    hide KernelOk;
    Facts(k, c);
    OnlyTaskKeeps(k, Unpark(k, c), c);
  }

  lemma ResetQueueKeeps(k: Kernel, th: Thread, q: nat)
    requires KernelOk(k) && Enabled(k, DoResetQueue(th, q))
    ensures KernelOk(ResetQueue(k, th, q))
  {
    hide KernelOk;
    var x := k.queues[q];
    if !x.deleted {
      ClearKeeps(k, q);
      PublishKeeps(SetQueue(k, q, x.(items := [], discarded := x.discarded + x.items)), th, q, Sending);
    }
  }

  // ----- deleting a queue

  /** Some blocked tasks were released without their condition holding; nothing else happened to any task. */
  ghost predicate MassRelease(k: Kernel, r: Kernel, result: WaitResult) {
    && r == k.(tasks := r.tasks, micros := r.micros) && |r.tasks| == |k.tasks|
    && (result == Timeout || result == Cancelled)
    && forall i {:trigger r.tasks[i]} {:trigger k.tasks[i]} :: 0 <= i < |k.tasks| ==>
         || r.tasks[i] == k.tasks[i]
         || (k.tasks[i].blocked && k.tasks[i].pc.Wait? && r.tasks[i] == ReleasedTask(k.tasks[i], result))
  }

  lemma MassReleaseTasks(k: Kernel, r: Kernel, result: WaitResult)
    requires TasksOk(k) && MassRelease(k, r, result)
    ensures TasksOk(r)
  {
    forall i | 0 <= i < |r.tasks| ensures TaskOk(r, i) { assert TaskOk(k, i); }
  }

  lemma MassReleaseKeeps(k: Kernel, r: Kernel, result: WaitResult)
    requires KernelOk(k) && MassRelease(k, r, result)
    ensures KernelOk(r)
  {
    hide TasksOk, MutexesOk, JoinsOk, QueuesOk;
    MassReleaseTasks(k, r, result);
    StampsKept(k, r);
    assert SameLocks(k, r) && SameJoins(k, r) && SameUses(k, r);
    SameLocksKeep(k, r);
    SameJoinsKeep(k, r);
    SameUsesKeep(k, r);
  }

  lemma ReleaseAllKeeps(k: Kernel, q: nat, th: Thread)
    requires KernelOk(k) && IsThread(k, th)
    ensures KernelOk(ReleaseAllOn(k, q)) && ReleaseAllOn(k, q).queues == k.queues
    ensures IsThread(ReleaseAllOn(k, q), th) && PcOf(ReleaseAllOn(k, q), th) == PcOf(k, th)
  {
    forall i | 0 <= i < |k.tasks| ensures k.tasks[i].blocked && k.tasks[i].wait.queue == Some(q) ==>
        k.tasks[i].pc.Wait? {
      assert TaskOk(k, i);
    }
    hide KernelOk;
    MassReleaseKeeps(k, ReleaseAllOn(k, q), Cancelled);
  }

  lemma ReleaseDueIsMass(k: Kernel, micros: nat)
    requires TasksOk(k)
    ensures MassRelease(k, ReleaseDue(k.(micros := micros)), Timeout)
  {
    forall i | 0 <= i < |k.tasks| ensures k.tasks[i].blocked && k.tasks[i].wait.timed ==> k.tasks[i].pc.Wait? {
      assert TaskOk(k, i);
    }
  }

  /** The deletion mark: nobody was draining the queue before. */
  lemma MarkDeletedKeeps(k: Kernel, q: nat, th: Thread)
    requires KernelOk(k) && q < |k.queues| && !k.queues[q].deleted
    ensures KernelOk(MarkDeleted(k, q, th))
  {
    hide TasksOk, StampsOk, MutexesOk, JoinsOk, Conserved;
    var r := MarkDeleted(k, q, th);
    var x := k.queues[q];
    SameTasksKeep(k, r);
    assert QueueOk(k, q);
    MarkConserves(k, q, th);
    SomeTask(k);
    SendersBounded(k, q);
    forall p | 0 <= p < |r.queues| ensures QueueOk(r, p) {
      assert QueueOk(k, p);
      assert Users(r, p) == Users(k, p) && WokenSenders(r, p) == WokenSenders(k, p);
    }
    forall i | 0 <= i < |r.tasks| ensures DrainPcOk(r, Worker(i), r.tasks[i].pc) {
      assert DrainPcOk(k, Worker(i), k.tasks[i].pc);
    }
    forall n | 0 <= n < |r.hosts| ensures DrainPcOk(r, Host(n), r.hosts[n]) {
      assert DrainPcOk(k, Host(n), k.hosts[n]);
    }
  }

  lemma MarkConserves(k: Kernel, q: nat, th: Thread)
    requires q < |k.queues| && Conserved(k.queues[q])
    ensures Conserved(MarkDeleted(k, q, th).queues[q])
  {
    DiscardConserves(k.queues[q]);
  }

  lemma SomeTask(k: Kernel)
    requires TasksOk(k)
    ensures |k.tasks| > 0
  {
  }

  lemma DrainByKeeps(k: Kernel, th: Thread, q: nat)
    requires KernelOk(k) && Calls(k, th) && DrainPcOk(k, th, Drain(q))
    ensures KernelOk(DrainBy(k, th, q))
  {
    hide KernelOk;
    match th
    case Host(n) => HostKeeps(k, n, Drain(q));
    case Worker(c) =>
      Facts(k, c);
      if k.running == Some(c) {
        var aside := SetTask(k, c, k.tasks[c].(runnable := false, pc := Drain(q))).(running := None);
        OnlyTaskKeeps(k, aside, c);
        DispatchKeeps(aside);
      } else {
        OnlyTaskKeeps(k, SetPc(k, th, Drain(q)), c);
      }
  }

  /** A host thread moves on, in no lock(). */
  lemma HostKeeps(k: Kernel, n: nat, pc: Pc)
    requires KernelOk(k) && n < |k.hosts| && !k.hosts[n].LockWait? && !k.hosts[n].Claimed? && !pc.LockWait?
             && !pc.Claimed?
    requires !pc.Exited? && !pc.Idle? && InUse(pc) == InUse(k.hosts[n])
    requires DrainPcOk(k, Host(n), pc) && JoinPcOk(k, Host(n), pc)
    ensures KernelOk(SetPc(k, Host(n), pc))
  {
    hide MutexesOk, JoinsOk, QueuesOk, TaskOk, StampsOk;
    var r := SetPc(k, Host(n), pc);
    assert StampsOk(r) by { StampsKept(k, r); }
    forall i | 0 <= i < |r.tasks| ensures TaskOk(r, i) { assert TaskOk(k, i); SameTaskOk(k, r, i); }
    SameLocksKeep(k, r);
    SameJoinsKeep(k, r);
    SameUsesKeep(k, r);
  }

  lemma SameTaskOk(k: Kernel, r: Kernel, i: nat)
    requires i < |k.tasks| && TaskOk(k, i) && r == k.(hosts := r.hosts)
    ensures TaskOk(r, i)
  {
  }

  lemma DeleteQueueKeeps(k: Kernel, th: Thread, q: nat)
    requires KernelOk(k) && Enabled(k, DoDeleteQueue(th, q))
    ensures KernelOk(DeleteQueue(k, th, q))
  {
    hide KernelOk, ReleaseAllOn, DrainBy;
    if !k.queues[q].deleted {
      MarkDeletedKeeps(k, q, th);
      var marked := MarkDeleted(k, q, th);
      ReleaseAllKeeps(marked, q, th);
      var gone := Dispatch(ReleaseAllOn(marked, q));
      DispatchKeeps(ReleaseAllOn(marked, q));
      if k.queues[q].users != 0 {
        DrainByKeeps(gone, th, q);
      }
    }
  }

  lemma EndDrainKeeps(k: Kernel, th: Thread)
    requires KernelOk(k) && Enabled(k, DoEndDrain(th))
    ensures KernelOk(EndDrain(k, th))
  {
    DrainFacts(k, th);
    hide KernelOk, Requeue, OnlyTask, TaskOk, AlikeForQueues;
    var q := PcOf(k, th).queue;
    var next := DrainTurn(q, k.queues[q].users == 0);
    match th
    case Host(n) => HostKeeps(k, n, next);
    case Worker(c) => if k.stopping { DrainStops(k, c, next); } else { RequeueKeeps(k, k, c, next); }
  }

  lemma DrainStops(k: Kernel, c: nat, next: Pc)
    requires KernelOk(k) && c < |k.tasks| && k.tasks[c].pc.Drain? && k.tasks[c].pc.queue < |k.queues| && k.stopping
    requires next == DrainTurn(k.tasks[c].pc.queue, k.queues[k.tasks[c].pc.queue].users == 0)
    ensures KernelOk(SetPc(k, Worker(c), next))
  {
    DrainFacts(k, Worker(c));
    Facts(k, c);
    hide KernelOk;
    OnlyTaskKeeps(k, SetPc(k, Worker(c), next), c);
  }

  lemma DrainFacts(k: Kernel, th: Thread)
    requires KernelOk(k) && IsThread(k, th)
    ensures DrainPcOk(k, th, PcOf(k, th)) && JoinPcOk(k, th, PcOf(k, th)) && LockPcOk(k, th, PcOf(k, th))
  {
  }

  lemma FreeQueueKeeps(k: Kernel, th: Thread)
    requires KernelOk(k) && Enabled(k, DoFreeQueue(th))
    ensures KernelOk(FreeQueue(k, th))
  {
    DrainFacts(k, th);
    var pc := PcOf(k, th);
    var done := SetPc(k, th, Code);
    LeaveDrainKeeps(k, th);
    if pc.drained { MarkFreedKeeps(k, done, th); }
  }

  lemma LeaveDrainKeeps(k: Kernel, th: Thread)
    requires KernelOk(k) && Enabled(k, DoFreeQueue(th))
    ensures KernelOk(SetPc(k, th, Code))
  {
    hide KernelOk;
    match th
    case Host(n) => HostKeeps(k, n, Code);
    case Worker(c) =>
      Facts(k, c);
      OnlyTaskKeeps(k, SetPc(k, th, Code), c);
  }

  /** The deleter releases the memory; no other thread drains the queue, and no task is inside its calls. */
  lemma MarkFreedKeeps(k: Kernel, done: Kernel, th: Thread)
    requires KernelOk(k) && KernelOk(done) && IsThread(k, th) && PcOf(k, th).DrainTurn? && PcOf(k, th).drained
    requires done == SetPc(k, th, Code)
    ensures KernelOk(SetQueue(done, PcOf(k, th).queue, done.queues[PcOf(k, th).queue].(freed := true)))
  {
    var q := PcOf(k, th).queue;
    hide TasksOk, StampsOk, MutexesOk, JoinsOk, QueueOk, DrainPcOk;
    assert DrainPcOk(k, th, PcOf(k, th));
    DrainedQueue(k, th);
    var r := SetQueue(done, q, done.queues[q].(freed := true));
    SameTasksKeep(done, r);
    forall p | 0 <= p < |r.queues| ensures QueueOk(r, p) {
      assert QueueOk(done, p);
      FreedQueueOk(done, q, p);
    }
    forall i | 0 <= i < |r.tasks| ensures DrainPcOk(r, Worker(i), r.tasks[i].pc) {
      assert DrainPcOk(k, Worker(i), k.tasks[i].pc) && DrainPcOk(done, Worker(i), done.tasks[i].pc);
      FreedDrain(k, done, th, Worker(i));
    }
    forall n | 0 <= n < |r.hosts| ensures DrainPcOk(r, Host(n), r.hosts[n]) {
      assert DrainPcOk(k, Host(n), k.hosts[n]) && DrainPcOk(done, Host(n), done.hosts[n]);
      FreedDrain(k, done, th, Host(n));
    }
  }

  lemma DrainedQueue(k: Kernel, th: Thread)
    requires IsThread(k, th) && PcOf(k, th).DrainTurn? && PcOf(k, th).drained && DrainPcOk(k, th, PcOf(k, th))
    ensures PcOf(k, th).queue < |k.queues| && k.queues[PcOf(k, th).queue].deleted
            && k.queues[PcOf(k, th).queue].users == 0
  {
  }

  lemma FreedDrain(k: Kernel, done: Kernel, th: Thread, other: Thread)
    requires IsThread(k, th) && IsThread(k, other) && PcOf(k, th).DrainTurn? && PcOf(k, th).drained
             && done == SetPc(k, th, Code)
    requires DrainPcOk(k, th, PcOf(k, th)) && DrainPcOk(k, other, PcOf(k, other))
             && DrainPcOk(done, other, PcOf(done, other))
    ensures var q := PcOf(k, th).queue;
            DrainPcOk(SetQueue(done, q, done.queues[q].(freed := true)), other, PcOf(done, other))
  {
  }

  lemma FreedQueueOk(k: Kernel, q: nat, p: nat)
    requires q < |k.queues| && p < |k.queues| && k.queues[q].deleted && k.queues[q].users == 0 && QueueOk(k, p)
    ensures QueueOk(SetQueue(k, q, k.queues[q].(freed := true)), p)
  {
    var r := SetQueue(k, q, k.queues[q].(freed := true));
    assert Users(r, p) == Users(k, p) && WokenSenders(r, p) == WokenSenders(k, p);
  }

  lemma NewQueueKeeps(k: Kernel, capacity: nat)
    requires KernelOk(k) && Enabled(k, DoNewQueue(capacity))
    ensures KernelOk(Next(k, DoNewQueue(capacity)))
  {
    var r := Next(k, DoNewQueue(capacity));
    SameTasksKeep(k, r);
    var q := |k.queues|;
    forall i | 0 <= i < |r.tasks| ensures DrainPcOk(r, Worker(i), r.tasks[i].pc) {
      assert DrainPcOk(k, Worker(i), k.tasks[i].pc);
    }
    forall p | 0 <= p < |r.queues| ensures QueueOk(r, p) {
      assert Users(r, p) == Users(k, p) && WokenSenders(r, p) == WokenSenders(k, p);
      if p < q { assert QueueOk(k, p); } else { NobodyIn(k, p); SendersBounded(k, p); }
    }
    forall n | 0 <= n < |r.hosts| ensures DrainPcOk(r, Host(n), r.hosts[n]) {
      assert DrainPcOk(k, Host(n), k.hosts[n]);
    }
  }

  lemma NobodyIn(k: Kernel, q: nat)
    requires QueuesOk(k) && q >= |k.queues|
    ensures Users(k, q) == {}
  {
    forall i | 0 <= i < |k.tasks| ensures InUse(k.tasks[i].pc) != Some(q) {
      assert DrainPcOk(k, Worker(i), k.tasks[i].pc);
    }
  }
}
