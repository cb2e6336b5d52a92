/** The lifecycle, clock and timer steps keep the invariant; then every run does. */
module KernelSafety {
  import opened Selection
  import opened KernelState
  import opened KernelSteps
  import opened KernelMachine
  import opened KernelInvariant
  import opened KernelPrimitives
  import opened QueueSafety
  import opened MutexSafety

  // ----- stopping

  /** Some registry tasks were asked to stop, and lost the turn if they had it. */
  ghost predicate Stops(k: Kernel, r: Kernel) {
    && r == k.(tasks := r.tasks, running := r.running) && |r.tasks| == |k.tasks|
    && (r.running == k.running || r.running == None)
    && forall i {:trigger r.tasks[i]} {:trigger k.tasks[i]} :: 0 <= i < |k.tasks| ==>
         || (r.tasks[i] == k.tasks[i] && (k.running == Some(i) ==> r.running == k.running))
         || (i > 0 && r.tasks[i] == StoppedTask(k.tasks[i]) && r.running != Some(i))
  }

  lemma StopsTasks(k: Kernel, r: Kernel)
    requires TasksOk(k) && Stops(k, r)
    ensures TasksOk(r)
  {
    forall i | 0 <= i < |r.tasks| ensures TaskOk(r, i) { assert TaskOk(k, i); }
  }

  lemma StopsUses(k: Kernel, r: Kernel)
    requires TasksOk(k) && Stops(k, r)
    ensures SameUses(k, r)
  {
    forall i | 0 <= i < |r.tasks| ensures forall q :: WokenSender(r.tasks[i], q) ==> WokenSender(k.tasks[i], q) {
      assert TaskOk(k, i);
    }
  }

  lemma StopsKeep(k: Kernel, r: Kernel)
    requires KernelOk(k) && Stops(k, r)
    ensures KernelOk(r)
  {
    hide TasksOk, MutexesOk, JoinsOk, QueuesOk;
    StopsTasks(k, r);
    StampsKept(k, r);
    assert SameLocks(k, r);
    assert SameJoins(k, r);
    StopsUses(k, r);
    SameLocksKeep(k, r);
    SameJoinsKeep(k, r);
    SameUsesKeep(k, r);
  }

  /** A thread starts or stops waiting for a join. */
  lemma JoinMoveKeeps(k: Kernel, th: Thread, pc: Pc)
    requires KernelOk(k) && IsThread(k, th) && (PcOf(k, th).Code? || PcOf(k, th).Join?) && (pc.Code? || pc.Join?)
    requires JoinPcOk(k, th, pc)
    ensures KernelOk(SetPc(k, th, pc))
  {
    hide KernelOk;
    match th
    case Host(n) => HostKeeps(k, n, pc);
    case Worker(c) =>
      Facts(k, c);
      OnlyTaskKeeps(k, SetPc(k, th, pc), c);
  }

  lemma DeleteKeeps(k: Kernel, th: Thread, target: nat)
    requires KernelOk(k) && Enabled(k, DoDelete(th, target))
    ensures KernelOk(Delete(k, th, target))
  {
    hide KernelOk;
    var stopped := RequestStop(k, target);
    StopsKeep(k, stopped);
    if th != Worker(target) { JoinMoveKeeps(stopped, th, Join(target)); }
  }

  // ----- joining

  /** Thread `th` moved between two parts in the join of `target`, and only these two changed. */
  ghost predicate JoinStep(k: Kernel, r: Kernel, th: Thread, pc: Pc, target: nat) {
    && IsThread(k, th) && 0 < target < |k.tasks| && k.tasks[target].pc.Exited? && th != Worker(target)
    && !pc.LockWait? && !PcOf(k, th).LockWait? && !pc.Exited? && !pc.Idle? && !pc.Drain? && !pc.DrainTurn?
    && Executing(PcOf(k, th)) && Executing(pc) && |r.tasks| == |k.tasks|
    && r == SetPc(SetTask(k, target, r.tasks[target]), th, pc)
    && r.tasks[target] == k.tasks[target].(life := r.tasks[target].life)
  }

  lemma JoinStepRest(k: Kernel, r: Kernel, th: Thread, pc: Pc, target: nat)
    requires KernelOk(k) && JoinStep(k, r, th, pc, target)
    ensures StampsOk(r) && MutexesOk(r) && QueuesOk(r)
  {
    hide TasksOk, MutexesOk, JoinsOk, QueuesOk;
    StampsKept(k, r);
    SameLocksKeep(k, r);
    SameUsesKeep(k, r);
  }

  lemma JoinStepTasks(k: Kernel, r: Kernel, th: Thread, pc: Pc, target: nat)
    requires TasksOk(k) && JoinStep(k, r, th, pc, target) && LifeOk(r.tasks[target])
    requires r.tasks[target].life.cycle != Running
    ensures TasksOk(r)
  {
    hide TaskOk, LifeOk, JoinStep;
    JoinStepFrame(k, r, th, pc, target);
    forall i | 0 <= i < |r.tasks| ensures TaskOk(r, i) {
      assert TaskOk(k, i);
      if i == target { JoinStepTarget(k, r, th, pc, target); }
      else if th == Worker(i) { JoinStepActor(k, r, pc, target, i); }
      else { JoinStepOther(k, r, th, pc, target, i); }
    }
  }

  lemma JoinStepFrame(k: Kernel, r: Kernel, th: Thread, pc: Pc, target: nat)
    requires JoinStep(k, r, th, pc, target)
    ensures |r.tasks| == |k.tasks| && r.running == k.running && r.stopping == k.stopping && 0 < target < |k.tasks|
    ensures th != Worker(target)
  {
  }

  lemma JoinStepTarget(k: Kernel, r: Kernel, th: Thread, pc: Pc, target: nat)
    requires JoinStep(k, r, th, pc, target) && TaskOk(k, target) && LifeOk(r.tasks[target])
    requires r.tasks[target].life.cycle != Running
    ensures TaskOk(r, target)
  {
  }

  lemma JoinStepActor(k: Kernel, r: Kernel, pc: Pc, target: nat, c: nat)
    requires JoinStep(k, r, Worker(c), pc, target) && TaskOk(k, c)
    ensures c < |r.tasks| && TaskOk(r, c)
  {
    assert r.tasks[c] == k.tasks[c].(pc := pc);
  }

  lemma JoinStepOther(k: Kernel, r: Kernel, th: Thread, pc: Pc, target: nat, i: nat)
    requires JoinStep(k, r, th, pc, target) && i < |k.tasks| && TaskOk(k, i) && i != target && th != Worker(i)
    ensures i < |r.tasks| && TaskOk(r, i)
  {
    assert r.tasks[i] == k.tasks[i];
  }

  /** The joins after a claim, or after the claimant finished its join. */
  lemma JoinStepJoins(k: Kernel, r: Kernel, th: Thread, pc: Pc, target: nat)
    requires JoinsOk(k) && JoinStep(k, r, th, pc, target) && JoinPcOk(r, th, pc) && JoiningOk(r, target)
    requires k.tasks[target].life.cycle == Joining ==> k.tasks[target].life.claimant == Some(th)
    requires PcOf(k, th).Claimed? ==> PcOf(k, th).target == target
    ensures JoinsOk(r)
  {
    hide JoinStep, JoinPcOk, JoiningOk;
    JoinStepFrame(k, r, th, pc, target);
    forall i | 0 <= i < |r.tasks| ensures JoiningOk(r, i) && JoinPcOk(r, Worker(i), r.tasks[i].pc) {
      JoinStepThread(k, r, th, pc, target, Worker(i));
      if i != target { JoinStepJoining(k, r, th, pc, target, i); }
    }
    forall n | 0 <= n < |r.hosts| ensures JoinPcOk(r, Host(n), r.hosts[n]) {
      JoinStepThread(k, r, th, pc, target, Host(n));
    }
  }

  lemma JoinStepThread(k: Kernel, r: Kernel, th: Thread, pc: Pc, target: nat, other: Thread)
    requires JoinsOk(k) && JoinStep(k, r, th, pc, target) && JoinPcOk(r, th, pc) && IsThread(r, other)
    requires k.tasks[target].life.cycle == Joining ==> k.tasks[target].life.claimant == Some(th)
    ensures JoinPcOk(r, other, PcOf(r, other))
  {
    if other == th {
      assert PcOf(r, th) == pc;
    } else {
      assert PcOf(r, other) == PcOf(k, other) && JoinPcOk(k, other, PcOf(k, other));
    }
  }

  lemma JoinStepJoining(k: Kernel, r: Kernel, th: Thread, pc: Pc, target: nat, i: nat)
    requires JoinsOk(k) && JoinStep(k, r, th, pc, target) && i < |k.tasks| && i != target
    requires PcOf(k, th).Claimed? ==> PcOf(k, th).target == target
    ensures i < |r.tasks| && JoiningOk(r, i)
  {
    assert JoiningOk(k, i) && r.tasks[i].life == k.tasks[i].life;
  }

  lemma JoinFacts(k: Kernel, th: Thread, target: nat)
    requires KernelOk(k) && IsThread(k, th) && target < |k.tasks|
    ensures JoinPcOk(k, th, PcOf(k, th)) && JoiningOk(k, target) && LifeOk(k.tasks[target])
    ensures th.Worker? ==> LifeOk(k.tasks[th.id])
  {
    assert TaskOk(k, target) && (th.Worker? ==> TaskOk(k, th.id));
  }

  lemma ClaimKeeps(k: Kernel, th: Thread)
    requires KernelOk(k) && Enabled(k, DoPollJoin(th)) && k.tasks[PcOf(k, th).target].life.cycle == Finished
    ensures KernelOk(PollJoin(k, th))
  {
    var target := PcOf(k, th).target;
    var r := PollJoin(k, th);
    JoinFacts(k, th, target);
    hide TasksOk, StampsOk, MutexesOk, JoinsOk, QueuesOk;
    JoinStepTasks(k, r, th, Claimed(target), target);
    JoinStepRest(k, r, th, Claimed(target), target);
    JoinStepJoins(k, r, th, Claimed(target), target);
  }

  lemma PollJoinKeeps(k: Kernel, th: Thread)
    requires KernelOk(k) && Enabled(k, DoPollJoin(th))
    ensures KernelOk(PollJoin(k, th))
  {
    var target := PcOf(k, th).target;
    match k.tasks[target].life.cycle
    case Joined => JoinMoveKeeps(k, th, Code);
    case Finished => ClaimKeeps(k, th);
    case _ =>
  }

  lemma CompleteJoinKeeps(k: Kernel, th: Thread)
    requires KernelOk(k) && Enabled(k, DoCompleteJoin(th))
    ensures KernelOk(CompleteJoin(k, th))
  {
    var target := PcOf(k, th).target;
    var r := CompleteJoin(k, th);
    JoinFacts(k, th, target);
    hide TasksOk, StampsOk, MutexesOk, JoinsOk, QueuesOk;
    JoinStepTasks(k, r, th, Code, target);
    JoinStepRest(k, r, th, Code, target);
    JoinStepJoins(k, r, th, Code, target);
  }

  lemma FinishKeeps(k: Kernel, c: nat)
    requires KernelOk(k) && Enabled(k, DoFinish(c))
    ensures KernelOk(Finish(k, c))
  {
    var r := GiveUpTurn(SetTask(k, c, FinishedTask(k.tasks[c])), c);
    FinishedKeeps(k, r, c);
    DispatchKeeps(r);
  }

  lemma FinishedKeeps(k: Kernel, r: Kernel, c: nat)
    requires KernelOk(k) && Enabled(k, DoFinish(c)) && r == GiveUpTurn(SetTask(k, c, FinishedTask(k.tasks[c])), c)
    ensures KernelOk(r)
  {
    hide TasksOk, StampsOk, MutexesOk, JoinsOk, QueuesOk;
    Facts(k, c);
    FinishedTaskOk(k, r, c);
    OnlyTaskOk(k, r, c);
    StampsKept(k, r);
    FinishedFrames(k, r, c);
    SameLocksKeep(k, r);
    SameJoinsKeep(k, r);
    SameUsesKeep(k, r);
  }

  lemma FinishedTaskOk(k: Kernel, r: Kernel, c: nat)
    requires 0 < c < |k.tasks| && TaskOk(k, c) && k.tasks[c].pc == Code
    requires r == GiveUpTurn(SetTask(k, c, FinishedTask(k.tasks[c])), c)
    ensures TaskOk(r, c)
  {
  }

  lemma FinishedFrames(k: Kernel, r: Kernel, c: nat)
    requires c < |k.tasks| && k.tasks[c].pc == Code && HoldsNothing(k, Worker(c)) && LifeOk(k.tasks[c])
    requires r == GiveUpTurn(SetTask(k, c, FinishedTask(k.tasks[c])), c)
    ensures SameLocks(k, r) && SameJoins(k, r) && SameUses(k, r)
  {
    hide NextRunnable;
  }

  lemma CreateKeeps(k: Kernel, th: Thread, priority: nat, bytes: nat)
    requires KernelOk(k) && Enabled(k, DoCreate(th, priority, bytes))
    ensures KernelOk(Create(k, th, priority, bytes))
  {
    hide KernelOk, Preempt, NewTask;
    if !k.stopping {
      var r := WithNewTask(k, priority, bytes);
      CreatedKeeps(k, r, priority, bytes);
      PreemptKeeps(r, th, None);
    }
  }

  lemma CreatedKeeps(k: Kernel, r: Kernel, priority: nat, bytes: nat)
    requires KernelOk(k) && r == WithNewTask(k, priority, bytes)
    ensures KernelOk(r)
  {
    hide MutexesOk, JoinsOk, QueuesOk;
    forall i | 0 <= i < |r.tasks| ensures TaskOk(r, i) { if i < |k.tasks| { assert TaskOk(k, i); } }
    forall i, j | 0 <= i < j < |r.tasks| ensures StampsApart(r.tasks[i], r.tasks[j]) {
      assert StampsBelow(k.tasks[i], k.nextReady);
      if j < |k.tasks| { assert StampsApart(k.tasks[i], k.tasks[j]); }
    }
    SameLocksKeep(k, r);
    SameJoinsKeep(k, r);
    SameUsesKeep(k, r);
  }

  // ----- clock, timer service, teardown

  /** A change of the timer service record. */
  lemma TimerKeeps(k: Kernel, r: Kernel)
    requires KernelOk(k) && OnlyTask(k, r, 0) && TaskOk(r, 0) && StampsStep(k, r, 0) && HoldsNothing(k, Worker(0))
    requires r.queues == k.queues && r.mutexes == k.mutexes && r.hosts == k.hosts
    requires r.tasks[0].stopping == k.tasks[0].stopping && r.tasks[0].life == k.tasks[0].life
    requires r.tasks[0].pc == k.tasks[0].pc || (Resting(k.tasks[0].pc) && Resting(r.tasks[0].pc))
    ensures KernelOk(r)
  {
    hide KernelOk;
    OnlyTaskKeeps(k, r, 0);
  }

  predicate Resting(pc: Pc) { pc == Idle || pc == Turn(None) || pc == Code }

  lemma TimerFlagKeeps(k: Kernel, r: Kernel)
    requires KernelOk(k) && OnlyTask(k, r, 0) && TaskOk(r, 0) && StampsStep(k, r, 0)
    requires r.queues == k.queues && r.mutexes == k.mutexes && r.hosts == k.hosts
    requires r.tasks[0].stopping == k.tasks[0].stopping && r.tasks[0].life == k.tasks[0].life
    requires r.tasks[0].pc == k.tasks[0].pc
    ensures KernelOk(r)
  {
    hide KernelOk;
    OnlyTaskKeeps(k, r, 0);
  }

  lemma TimerOnKeeps(k: Kernel)
    requires KernelOk(k) && |k.tasks| > 0 && !k.tasks[0].runnable
    ensures KernelOk(TimerOn(k))
  {
    TimerFacts(k);
    hide KernelOk;
    TimerFlagKeeps(k, TimerOn(k));
  }

  lemma TimerOffKeeps(k: Kernel)
    requires KernelOk(k) && |k.tasks| > 0 && !k.timerExecuting
    ensures KernelOk(GiveUpTurn(SetTask(k, 0, k.tasks[0].(runnable := false)), 0))
  {
    TimerFacts(k);
    hide KernelOk;
    TimerFlagKeeps(k, GiveUpTurn(SetTask(k, 0, k.tasks[0].(runnable := false)), 0));
  }

  lemma TimerDueKeeps(k: Kernel, due: bool)
    requires KernelOk(k) && |k.tasks| > 0
    ensures KernelOk(TimerDue(k, due))
  {
    hide KernelOk;
    if due && !k.tasks[0].runnable {
      TimerOnKeeps(k);
      DispatchKeeps(TimerOn(k));
    } else if !due && !k.timerExecuting {
      TimerOffKeeps(k);
      DispatchKeeps(GiveUpTurn(SetTask(k, 0, k.tasks[0].(runnable := false)), 0));
    } else {
      DispatchKeeps(k);
    }
  }

  lemma TimerFacts(k: Kernel)
    requires KernelOk(k)
    ensures |k.tasks| > 0 && TaskOk(k, 0) && (k.tasks[0].pc.Idle? ==> HoldsNothing(k, Worker(0)))
  {
    assert TaskOk(k, 0);
    forall m | 0 <= m < |k.mutexes| && k.tasks[0].pc.Idle? ensures k.mutexes[m].owner != Held(Worker(0)) {
      assert MutexOk(k, m);
    }
  }

  lemma ReleaseDueKeeps(k: Kernel, micros: nat)
    requires KernelOk(k)
    ensures KernelOk(ReleaseDue(k.(micros := micros)))
  {
    ReleaseDueIsMass(k, micros);
    hide KernelOk, MassRelease;
    MassReleaseKeeps(k, ReleaseDue(k.(micros := micros)), Timeout);
  }

  lemma AdvanceKeeps(k: Kernel, elapsed: nat, due: bool)
    requires KernelOk(k) && |k.tasks| > 0
    ensures KernelOk(Advance(k, elapsed, due))
  {
    hide KernelOk, TimerDue;
    ReleaseDueKeeps(k, k.micros + elapsed);
    TimerDueKeeps(ReleaseDue(k.(micros := k.micros + elapsed)), due);
  }

  lemma EnterTimerKeeps(k: Kernel)
    requires KernelOk(k) && Enabled(k, DoEnterTimer)
    ensures KernelOk(EnterTimer(k))
  {
    hide KernelOk;
    EnteredTimerKeeps(k);
    DispatchKeeps(EnteredTimer(k));
  }

  lemma EnteredTimerKeeps(k: Kernel)
    requires KernelOk(k) && Enabled(k, DoEnterTimer)
    ensures KernelOk(EnteredTimer(k))
  {
    TimerFacts(k);
    hide KernelOk;
    TimerKeeps(k, EnteredTimer(k));
  }

  lemma StartTimerKeeps(k: Kernel)
    requires KernelOk(k) && Enabled(k, DoStartTimer)
    ensures KernelOk(StartTimer(k))
  {
    TimerFacts(k);
    hide KernelOk;
    OnlyTaskKeeps(k, StartTimer(k), 0);
  }

  lemma ExitTimerKeeps(k: Kernel, due: bool)
    requires KernelOk(k) && Enabled(k, DoExitTimer(due))
    ensures KernelOk(ExitTimer(k, due))
  {
    hide NextRunnable, KernelOk;
    TimerFacts(k);
    var r := GiveUpTurn(SetTask(k, 0, k.tasks[0].(
      runnable := due, blocked := false, pc := Idle, wait := k.tasks[0].wait.(kind := NoWait, result := NoResult)))
      .(timerExecuting := false), 0);
    TimerKeeps(k, r);
    DispatchKeeps(r);
  }

  lemma ParkKeeps(k: Kernel)
    requires KernelOk(k)
    ensures KernelOk(Park(k))
  {
    if k.running.Some? {
      var c := k.running.value;
      var r := SetTask(k, c, k.tasks[c].(parked := true)).(running := None);
      Facts(k, c);
      hide KernelOk;
      OnlyTaskKeeps(k, r, c);
      DispatchKeeps(r);
    }
  }

  lemma StopKeeps(k: Kernel)
    requires KernelOk(k)
    ensures KernelOk(k.(stopping := true))
  {
    var r := k.(stopping := true);
    hide MutexesOk, JoinsOk, QueuesOk;
    forall i | 0 <= i < |r.tasks| ensures TaskOk(r, i) { assert TaskOk(k, i); }
    StampsKept(k, r);
    SameLocksKeep(k, r);
    SameJoinsKeep(k, r);
    SameUsesKeep(k, r);
  }

  /** Once every task was joined and no host thread is inside lock(), no waiter is linked anywhere. */
  lemma NoWaiters(k: Kernel)
    requires KernelOk(k) && Enabled(k, DoResetKernel)
    ensures forall m {:trigger k.mutexes[m]} :: 0 <= m < |k.mutexes| ==> k.mutexes[m].waiters == []
    ensures forall i {:trigger k.tasks[i]} :: 0 < i < |k.tasks| ==> k.tasks[i].pc.Exited?
  {
    forall i | 0 < i < |k.tasks| ensures k.tasks[i].pc.Exited? { assert TaskOk(k, i); }
    forall m | 0 <= m < |k.mutexes| ensures k.mutexes[m].waiters == [] {
      assert MutexOk(k, m);
      var ws := k.mutexes[m].waiters;
      assert |ws| > 0 ==> LinkOk(k, m, ws[0]);
    }
  }

  lemma ResetTasks(k: Kernel, r: Kernel)
    requires TasksOk(k) && |k.tasks| > 0 && k.tasks[0].pc == Idle && r == ResetKernel(k)
    requires forall i {:trigger k.tasks[i]} :: 0 < i < |k.tasks| ==> k.tasks[i].pc.Exited?
    ensures TasksOk(r) && StampsOk(r)
  {
    forall i | 0 <= i < |r.tasks| ensures TaskOk(r, i) && !Live(r.tasks[i]) { assert TaskOk(k, i); }
  }

  lemma ResetKernelKeeps(k: Kernel)
    requires KernelOk(k) && Enabled(k, DoResetKernel)
    ensures KernelOk(ResetKernel(k))
  {
    NoWaiters(k);
    hide TasksOk, StampsOk, MutexesOk, JoinsOk, QueuesOk;
    var r := ResetKernel(k);
    ResetTasks(k, r);
    ResetMutexes(k, r);
    SameJoinsKeep(k, r);
    SameUsesKeep(k, r);
  }

  lemma ResetMutexes(k: Kernel, r: Kernel)
    requires MutexesOk(k) && |k.tasks| > 0 && r == ResetKernel(k)
    requires forall m {:trigger k.mutexes[m]} :: 0 <= m < |k.mutexes| ==> k.mutexes[m].waiters == []
    ensures MutexesOk(r)
  {
    forall m | 0 <= m < |r.mutexes| ensures MutexOk(r, m) { assert MutexOk(k, m); }
    forall i | 0 <= i < |r.tasks| ensures LockPcOk(r, Worker(i), r.tasks[i].pc) {
      assert LockPcOk(k, Worker(i), k.tasks[i].pc);
    }
    forall n | 0 <= n < |r.hosts| ensures LockPcOk(r, Host(n), r.hosts[n]) {
      assert LockPcOk(k, Host(n), k.hosts[n]);
    }
  }

  // ----- all steps, all runs

  lemma StepKeeps(k: Kernel, s: Step)
    requires KernelOk(k) && Enabled(k, s)
    ensures KernelOk(Next(k, s))
  {
    hide KernelOk, Enabled, Next;
    if OnQueues(s) { QueueStepKeeps(k, s); }
    else if OnLocks(s) { LockStepKeeps(k, s); }
    else if OnLives(s) { LifeStepKeeps(k, s); }
    else { TurnStepKeeps(k, s); }
  }

  predicate OnQueues(s: Step) {
    s.DoSend? || s.DoReceive? || s.DoResume? || s.DoNewQueue? || s.DoResetQueue? || s.DoDeleteQueue? || s.DoEndDrain?
    || s.DoFreeQueue?
  }

  lemma QueueStepKeeps(k: Kernel, s: Step)
    requires KernelOk(k) && Enabled(k, s) && OnQueues(s)
    ensures KernelOk(Next(k, s))
  {
    match s
    case DoSend(_, _, _, _, _) => SendKeeps(k, s);
    case DoReceive(_, _, _) => ReceiveKeeps(k, s);
    case DoResume(c) => ResumeKeeps(k, c);
    case DoNewQueue(capacity) => NewQueueKeeps(k, capacity);
    case DoResetQueue(th, q) => ResetQueueKeeps(k, th, q);
    case DoDeleteQueue(th, q) => DeleteQueueKeeps(k, th, q);
    case DoEndDrain(th) => EndDrainKeeps(k, th);
    case DoFreeQueue(th) => FreeQueueKeeps(k, th);
  }

  predicate OnLocks(s: Step) { s.DoLock? || s.DoTryLock? || s.DoUnlock? || s.DoLockReturn? || s.DoLockCancel? }

  lemma LockStepKeeps(k: Kernel, s: Step)
    requires KernelOk(k) && Enabled(k, s) && OnLocks(s)
    ensures KernelOk(Next(k, s))
  {
    match s
    case DoLock(th, m) => LockKeeps(k, th, m);
    case DoTryLock(th, m) => if !k.mutexes[m].locked { FastLockKeeps(k, th, m); }
    case DoUnlock(th, m) => UnlockKeeps(k, th, m);
    case DoLockReturn(th) => LockReturnKeeps(k, th);
    case DoLockCancel(th) => LockCancelKeeps(k, th);
  }

  predicate OnLives(s: Step) {
    s.DoCreate? || s.DoFinish? || s.DoDelete? || s.DoJoin? || s.DoPollJoin? || s.DoCompleteJoin? || s.DoStop?
    || s.DoStopAll? || s.DoResetKernel?
  }

  lemma LifeStepKeeps(k: Kernel, s: Step)
    requires KernelOk(k) && Enabled(k, s) && OnLives(s)
    ensures KernelOk(Next(k, s))
  {
    match s
    case DoCreate(th, priority, bytes) => CreateKeeps(k, th, priority, bytes);
    case DoFinish(c) => FinishKeeps(k, c);
    case DoDelete(th, target) => DeleteKeeps(k, th, target);
    case DoJoin(th, target) => JoinMoveKeeps(k, th, Join(target));
    case DoPollJoin(th) => PollJoinKeeps(k, th);
    case DoCompleteJoin(th) => CompleteJoinKeeps(k, th);
    case DoStop => StopKeeps(k);
    case DoStopAll => StopsKeep(k, StopAll(k));
    case DoResetKernel => ResetKernelKeeps(k);
  }

  lemma TurnStepKeeps(k: Kernel, s: Step)
    requires KernelOk(k) && Enabled(k, s) && !OnQueues(s) && !OnLocks(s) && !OnLives(s)
    ensures KernelOk(Next(k, s))
  {
    match s
    case DoGive(th, target) => GiveKeeps(k, th, target);
    case DoTake(_, _, _) => TakeKeeps(k, s);
    case DoDelay(_, _) => DelayKeeps(k, s);
    case DoTakeTurn(c) => TakeTurnKeeps(k, c);
    case DoAdvance(elapsed, due) => AdvanceKeeps(k, elapsed, due);
    case DoTimerDue(due) => TimerDueKeeps(k, due);
    case DoEnterTimer => EnterTimerKeeps(k);
    case DoStartTimer => StartTimerKeeps(k);
    case DoExitTimer(due) => ExitTimerKeeps(k, due);
    case DoDispatch => DispatchKeeps(k);
    case DoReachTurn(c) => UnparkKeeps(k, c); DispatchKeeps(Unpark(k, c));
    case DoPark => ParkKeeps(k);
  }

  lemma InitialOk(k: Kernel)
    requires Initial(k)
    ensures KernelOk(k)
  {
  }

  /** The invariant holds after every run. */
  lemma {:induction false} RunKeeps(k: Kernel, run: seq<Step>)
    requires KernelOk(k) && IsRun(k, run)
    ensures KernelOk(After(k, run))
    decreases |run|
  {
    if run != [] {
      StepKeeps(k, run[0]);
      RunKeeps(Next(k, run[0]), run[1..]);
    }
  }

  lemma Reachable(k: Kernel, run: seq<Step>)
    requires Initial(k) && IsRun(k, run)
    ensures KernelOk(After(k, run))
  {
    InitialOk(k);
    RunKeeps(k, run);
  }
}
