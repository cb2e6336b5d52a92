/** The object is the machine: whatever step the machine may take, the object takes it by one call, and the kernel
    invariant holds again when the call is over. */
module SchedulerRuns {
  import opened Selection
  import opened KernelState
  import opened KernelSteps
  import opened KernelMachine
  import opened KernelInvariant
  import opened KernelPrimitives
  import opened KernelSafety
  import opened Scheduler

  method PerformOnQueue(o: Scheduler, s: Step)
    requires s.DoSend? || s.DoReceive? || s.DoNewQueue? || s.DoResetQueue? || s.DoDeleteQueue? || s.DoEndDrain?
             || s.DoFreeQueue?
    requires Enabled(o.View(), s)
    modifies o
    ensures o.View() == Next(old(o.View()), s)
  {
    hide Send, Receive, ResetQueue, DeleteQueue, EndDrain, FreeQueue;
    match s {
      case DoSend(th, q, item, front, ticks) => var _ := o.QueueSend(th, q, item, front, ticks);
      case DoReceive(th, q, ticks) => var _ := o.QueueReceive(th, q, ticks);
      case DoNewQueue(capacity) => o.queues := o.queues + [EmptyQueue(capacity)];
      case DoResetQueue(th, q) => var _ := o.QueueReset(th, q);
      case DoDeleteQueue(th, q) => o.QueueDelete(th, q);
      case DoEndDrain(th) => o.DrainEnded(th);
      case DoFreeQueue(th) => o.ReleaseQueueMemory(th);
    }
  }

  method PerformOnMutex(o: Scheduler, s: Step)
    requires s.DoLock? || s.DoTryLock? || s.DoUnlock? || s.DoLockReturn? || s.DoLockCancel?
    requires Enabled(o.View(), s)
    modifies o
    ensures o.View() == Next(old(o.View()), s)
  {
    hide Lock, TryLock, Unlock, LockReturn, LockCancel;
    match s {
      case DoLock(th, m) => o.LockMutex(th, m);
      case DoTryLock(th, m) => var _ := o.TryLockMutex(th, m);
      case DoUnlock(th, m) => o.UnlockMutex(th, m);
      case DoLockReturn(th) => o.LockReturns(th);
      case DoLockCancel(th) => o.LockCancelled(th);
    }
  }

  method PerformOnTask(o: Scheduler, s: Step)
    requires s.DoGive? || s.DoTake? || s.DoDelay? || s.DoResume? || s.DoTakeTurn? || s.DoReachTurn? || s.DoDispatch?
             || s.DoPark?
    requires Enabled(o.View(), s) && (s.DoResume? ==> InsideQueue(o.View(), s.c))
    modifies o
    ensures o.View() == Next(old(o.View()), s)
  {
    hide Give, Take, Delay, Resume, TakeTurn, ReachTurn, Dispatch, Park;
    match s {
      case DoGive(th, target) => o.NotifyGive(th, target);
      case DoTake(c, clear, ticks) => var _ := o.NotifyTake(c, clear, ticks);
      case DoDelay(c, ticks) => o.TaskDelay(c, ticks);
      case DoResume(c) => var _ := o.ResumeCall(c);
      case DoTakeTurn(c) => o.TakeTheTurn(c);
      case DoDispatch => o.DispatchNext();
      case DoReachTurn(c) => o.ReachTheTurn(c);
      case DoPark => o.ParkHolder();
    }
  }

  method PerformOnClock(o: Scheduler, s: Step)
    requires s.DoAdvance? || s.DoTimerDue? || s.DoEnterTimer? || s.DoStartTimer? || s.DoExitTimer?
    requires Enabled(o.View(), s)
    modifies o
    ensures o.View() == Next(old(o.View()), s)
  {
    hide Advance, TimerDue, EnterTimer, StartTimer, ExitTimer, HoldsNothing;
    match s {
      case DoAdvance(elapsed, due) => o.ClockAdvanced(elapsed, due);
      case DoTimerDue(due) => o.TimerDueChanged(due);
      case DoEnterTimer => o.TimerCallbackEnters();
      case DoStartTimer => o.TimerCallbackStarts();
      case DoExitTimer(due) => o.TimerCallbackEnds(due);
    }
  }

  method PerformOnLife(o: Scheduler, s: Step)
    requires s.DoCreate? || s.DoFinish? || s.DoStop? || s.DoStopAll? || s.DoResetKernel?
    requires Enabled(o.View(), s) && (o.running.Some? ==> o.running.value < |o.tasks|)
    modifies o
    ensures o.View() == Next(old(o.View()), s)
  {
    hide Create, Finish, StopAll, ResetKernel, HoldsNothing;
    match s {
      case DoCreate(th, priority, bytes) => var _ := o.TaskCreate(th, priority, bytes, true);
      case DoFinish(c) => var _ := o.MarkFinished(c);
      case DoStop => o.stopping := true;
      case DoStopAll => o.StopAllTasks();
      case DoResetKernel => o.ResetTasks();
    }
  }

  method PerformOnJoin(o: Scheduler, s: Step)
    requires s.DoDelete? || s.DoJoin? || s.DoPollJoin? || s.DoCompleteJoin?
    requires Enabled(o.View(), s)
    modifies o
    ensures o.View() == Next(old(o.View()), s)
  {
    hide Delete, PollJoin, CompleteJoin;
    match s {
      case DoDelete(th, target) => o.TaskDelete(th, target);
      case DoJoin(th, target) => o.Move(th, Join(target));
      case DoPollJoin(th) => o.PollJoinTask(th);
      case DoCompleteJoin(th) => o.CompleteJoinTask(th);
    }
  }

  lemma TurnInRange(k: Kernel)
    requires KernelOk(k)
    ensures k.running.Some? ==> k.running.value < |k.tasks|
  {
  }

  /** A call that waits on a queue waits on one that exists. */
  predicate InsideQueue(k: Kernel, c: nat) {
    c < |k.tasks| && k.tasks[c].pc.Wait? && QueueOf(k.tasks[c].pc.op).Some? ==>
      QueueOf(k.tasks[c].pc.op).value < |k.queues|
  }

  lemma WaitsInside(k: Kernel, c: nat)
    requires KernelOk(k)
    ensures InsideQueue(k, c)
  {
    if c < |k.tasks| { Facts(k, c); }
  }

  /** One step of the machine is one call on the object. */
  method Perform(o: Scheduler, s: Step)
    requires KernelOk(o.View()) && Enabled(o.View(), s)
    modifies o
    ensures o.View() == Next(old(o.View()), s) && KernelOk(o.View())
  {
    StepKeeps(o.View(), s);
    TurnInRange(o.View());
    if s.DoResume? { WaitsInside(o.View(), s.c); }
    hide KernelOk, Enabled, Next;
    if s.DoSend? || s.DoReceive? || s.DoNewQueue? || s.DoResetQueue? || s.DoDeleteQueue? || s.DoEndDrain?
      || s.DoFreeQueue? {
      PerformOnQueue(o, s);
    } else if s.DoLock? || s.DoTryLock? || s.DoUnlock? || s.DoLockReturn? || s.DoLockCancel? {
      PerformOnMutex(o, s);
    } else if s.DoDelete? || s.DoJoin? || s.DoPollJoin? || s.DoCompleteJoin? {
      PerformOnJoin(o, s);
    } else if s.DoCreate? || s.DoFinish? || s.DoStop? || s.DoStopAll? || s.DoResetKernel? {
      PerformOnLife(o, s);
    } else if s.DoGive? || s.DoTake? || s.DoDelay? || s.DoResume? || s.DoTakeTurn? || s.DoReachTurn? || s.DoDispatch?
              || s.DoPark? {
      PerformOnTask(o, s);
    } else {
      PerformOnClock(o, s);
    }
  }

  /** From boot, any sequence of calls that is a run takes the object to the run's last state and keeps the
      invariant. */
  method PerformRun(o: Scheduler, run: seq<Step>)
    requires Initial(o.View()) && IsRun(o.View(), run)
    modifies o
    ensures o.View() == After(old(o.View()), run) && KernelOk(o.View())
  {
    InitialOk(o.View());
    hide KernelOk, Initial, Enabled, Next;
    var i := 0;
    while i < |run|
      invariant i <= |run| && KernelOk(o.View()) && IsRun(o.View(), run[i..])
      invariant After(o.View(), run[i..]) == After(old(o.View()), run)
    {
      assert run[i..][0] == run[i] && run[i..][1..] == run[i + 1..];
      Perform(o, run[i]);
      i := i + 1;
    }
  }
}
