/** The kernel as a transition system: which step a thread may take where, what it does, and whole runs. */
module KernelMachine {
  import opened Selection
  import opened KernelState
  import opened KernelSteps

  datatype Step =
    | DoSend(th: Thread, queue: nat, item: Item, front: bool, ticks: nat)
    | DoReceive(th: Thread, queue: nat, ticks: nat)
    | DoGive(th: Thread, target: nat)
    | DoTake(c: nat, clear: bool, ticks: nat)
    | DoDelay(c: nat, ticks: nat)
    | DoResume(c: nat)
    | DoTakeTurn(c: nat)
    | DoLock(th: Thread, mutex: nat)
    | DoTryLock(th: Thread, mutex: nat)
    | DoUnlock(th: Thread, mutex: nat)
    | DoLockReturn(th: Thread)
    | DoLockCancel(th: Thread)
    | DoCreate(th: Thread, priority: nat, bytes: nat)
    | DoFinish(c: nat)
    | DoDelete(th: Thread, target: nat)
    | DoJoin(th: Thread, target: nat)
    | DoPollJoin(th: Thread)
    | DoCompleteJoin(th: Thread)
    | DoNewQueue(capacity: nat)
    | DoResetQueue(th: Thread, queue: nat)
    | DoDeleteQueue(th: Thread, queue: nat)
    | DoEndDrain(th: Thread)
    | DoFreeQueue(th: Thread)
    | DoAdvance(elapsed: nat, due: bool)
    | DoTimerDue(due: bool)
    | DoEnterTimer
    | DoStartTimer
    | DoExitTimer(due: bool)
    | DoDispatch
    | DoReachTurn(c: nat)
    | DoPark
    | DoStop
    | DoStopAll
    | DoResetKernel

  /** The thread is executing firmware code and may call into the kernel. */
  predicate Calls(k: Kernel, th: Thread) {
    IsThread(k, th) && PcOf(k, th) == Code
  }

  /** Queue handles are used only until their memory is released. */
  predicate LiveQueue(k: Kernel, q: nat) { q < |k.queues| && !k.queues[q].freed }

  /** The lock guards of the firmware release every mutex before a thread ends. */
  ghost predicate HoldsNothing(k: Kernel, th: Thread) {
    forall m :: 0 <= m < |k.mutexes| ==> k.mutexes[m].owner != Held(th)
  }

  /** A registry task; the timer service only makes calls that cannot block it on a queue or a delay. */
  predicate IsRegistered(k: Kernel, i: nat) { 0 < i < |k.tasks| }

  /** The thread's host thread may still be on its way to the point where it waits for the turn: a new task, or one
      whose wait is over. */
  predicate AwaitsTurn(t: Task) {
    t.pc == Turn(None) || (t.pc.Wait? && !t.blocked) || (t.pc.LockWait? && t.pc.granted)
  }

  ghost predicate Enabled(k: Kernel, s: Step) {
    match s
    case DoSend(th, q, _, _, ticks) => Calls(k, th) && LiveQueue(k, q) && ((th.Worker? && th.id > 0) || ticks == 0)
    case DoReceive(th, q, ticks) => Calls(k, th) && LiveQueue(k, q) && ((th.Worker? && th.id > 0) || ticks == 0)
    case DoGive(th, target) => Calls(k, th) && IsRegistered(k, target)
    case DoTake(c, _, ticks) => Calls(k, Worker(c)) && (c > 0 || ticks == 0)
    case DoDelay(c, _) => Calls(k, Worker(c)) && c > 0
    case DoResume(c) =>
      IsThread(k, Worker(c)) && k.tasks[c].pc.Wait?
      && (StoppingThread(k, Worker(c)) || (k.tasks[c].wait.result != NoResult && k.running == Some(c)))
    case DoTakeTurn(c) =>
      IsThread(k, Worker(c)) && k.tasks[c].pc.Turn? && (StoppingThread(k, Worker(c)) || k.running == Some(c))
      && (c == 0 ==> k.timerExecuting)
    case DoLock(th, m) => Calls(k, th) && m < |k.mutexes|
    case DoTryLock(th, m) => Calls(k, th) && m < |k.mutexes|
    case DoUnlock(th, m) => Calls(k, th) && m < |k.mutexes| && k.mutexes[m].owner == Held(th)
    case DoLockReturn(th) =>
      IsThread(k, th) && PcOf(k, th).LockWait? && PcOf(k, th).granted && PcOf(k, th).mutex < |k.mutexes|
      && HasTurn(k, th) && !StoppingThread(k, th)
    case DoLockCancel(th) =>
      IsThread(k, th) && PcOf(k, th).LockWait? && PcOf(k, th).mutex < |k.mutexes| && StoppingThread(k, th)
    case DoCreate(th, _, _) => Calls(k, th)
    case DoFinish(c) => Calls(k, Worker(c)) && c > 0 && HoldsNothing(k, Worker(c))
    case DoDelete(th, target) => Calls(k, th) && IsRegistered(k, target)
    case DoJoin(th, target) =>
      Calls(k, th) && IsRegistered(k, target) && k.tasks[target].stopping && th != Worker(target)
    case DoPollJoin(th) =>
      IsThread(k, th) && PcOf(k, th).Join? && PcOf(k, th).target < |k.tasks|
    case DoCompleteJoin(th) =>
      IsThread(k, th) && PcOf(k, th).Claimed? && PcOf(k, th).target < |k.tasks|
      && k.tasks[PcOf(k, th).target].pc.Exited?
    case DoNewQueue(capacity) => capacity > 0 && !k.stopping
    case DoResetQueue(th, q) => Calls(k, th) && LiveQueue(k, q)
    case DoDeleteQueue(th, q) => Calls(k, th) && LiveQueue(k, q)
    case DoEndDrain(th) =>
      IsThread(k, th) && PcOf(k, th).Drain? && PcOf(k, th).queue < |k.queues|
      && (k.queues[PcOf(k, th).queue].users == 0 || k.stopping)
    case DoFreeQueue(th) =>
      IsThread(k, th) && PcOf(k, th).DrainTurn? && PcOf(k, th).queue < |k.queues|
      && (HasTurn(k, th) || StoppingThread(k, th))
    case DoAdvance(_, _) => |k.tasks| > 0
    case DoTimerDue(_) => |k.tasks| > 0
    case DoEnterTimer => |k.tasks| > 0 && k.tasks[0].pc == Idle
    case DoStartTimer =>
      |k.tasks| > 0 && k.tasks[0].pc == Turn(None) && !k.timerExecuting && k.running == Some(0) && !k.stopping
    case DoExitTimer(_) =>
      |k.tasks| > 0 && HoldsNothing(k, Worker(0))
      && (k.tasks[0].pc == Code || (k.tasks[0].pc == Turn(None) && !k.timerExecuting && k.stopping))
    case DoDispatch => true
    case DoReachTurn(c) => IsThread(k, Worker(c)) && AwaitsTurn(k.tasks[c])
    case DoPark => true
    case DoStop => true
    case DoStopAll => k.stopping
    case DoResetKernel =>
      |k.tasks| > 0 && k.tasks[0].pc == Idle
      && (forall i :: 0 < i < |k.tasks| ==> k.tasks[i].life.cycle == Joined)
      && (forall n :: 0 <= n < |k.hosts| ==> !k.hosts[n].LockWait?)
  }

  function EmptyQueue(capacity: nat): Queue { Queue(capacity, [], false, 0, None, false, [], [], [], false) }

  ghost function Next(k: Kernel, s: Step): Kernel
    requires Enabled(k, s)
  {
    hide HoldsNothing, Send, Receive, Give, Take, Delay, Resume, TakeTurn, Lock, TryLock, Unlock, LockReturn,
      LockCancel, Create,
         Finish, Delete, PollJoin, CompleteJoin, ResetQueue, DeleteQueue, EndDrain, FreeQueue, Advance, TimerDue,
           EnterTimer,
         StartTimer, ExitTimer, Dispatch, ReachTurn, Park, StopAll, ResetKernel;
    match s
    case DoSend(th, q, item, front, ticks) => Send(k, th, q, item, front, ticks)
    case DoReceive(th, q, ticks) => Receive(k, th, q, ticks)
    case DoGive(th, target) => Give(k, th, target)
    case DoTake(c, clear, ticks) => Take(k, c, clear, ticks)
    case DoDelay(c, ticks) => Delay(k, c, ticks)
    case DoResume(c) => Resume(k, c)
    case DoTakeTurn(c) => TakeTurn(k, c)
    case DoLock(th, m) => Lock(k, th, m)
    case DoTryLock(th, m) => TryLock(k, th, m)
    case DoUnlock(th, m) => Unlock(k, th, m)
    case DoLockReturn(th) => LockReturn(k, th)
    case DoLockCancel(th) => LockCancel(k, th)
    case DoCreate(th, priority, bytes) => Create(k, th, priority, bytes)
    case DoFinish(c) => Finish(k, c)
    case DoDelete(th, target) => Delete(k, th, target)
    case DoJoin(th, target) => SetPc(k, th, Join(target))
    case DoPollJoin(th) => PollJoin(k, th)
    case DoCompleteJoin(th) => CompleteJoin(k, th)
    case DoNewQueue(capacity) => k.(queues := k.queues + [EmptyQueue(capacity)])
    case DoResetQueue(th, q) => ResetQueue(k, th, q)
    case DoDeleteQueue(th, q) => DeleteQueue(k, th, q)
    case DoEndDrain(th) => EndDrain(k, th)
    case DoFreeQueue(th) => FreeQueue(k, th)
    case DoAdvance(elapsed, due) => Advance(k, elapsed, due)
    case DoTimerDue(due) => TimerDue(k, due)
    case DoEnterTimer => EnterTimer(k)
    case DoStartTimer => StartTimer(k)
    case DoExitTimer(due) => ExitTimer(k, due)
    case DoDispatch => Dispatch(k)
    case DoReachTurn(c) => ReachTurn(k, c)
    case DoPark => Park(k)
    case DoStop => k.(stopping := true)
    case DoStopAll => StopAll(k)
    case DoResetKernel => ResetKernel(k)
  }

  /** Before the first task is created: some host threads in their own code, some unlocked mutexes. */
  ghost predicate Initial(k: Kernel) {
    && |k.tasks| == 1 && k.tasks[0] == NewTask(k.tasks[0].priority, 0, 0).(pc := Idle, runnable := false)
    && (forall n :: 0 <= n < |k.hosts| ==> k.hosts[n] == Code)
    && (forall m :: 0 <= m < |k.mutexes| ==> k.mutexes[m] == Mutex(false, [], Free))
    && k.queues == [] && k.running == None && k.nextReady == 0 && !k.stopping && !k.timerExecuting
  }

  /** Each step of the run is enabled where it is taken. */
  ghost predicate IsRun(k: Kernel, run: seq<Step>)
    decreases |run|
  {
    run == [] || (Enabled(k, run[0]) && IsRun(Next(k, run[0]), run[1..]))
  }

  ghost function After(k: Kernel, run: seq<Step>): Kernel
    requires IsRun(k, run)
    decreases |run|
  {
    if run == [] then k else After(Next(k, run[0]), run[1..])
  }
}
