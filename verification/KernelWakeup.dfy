/** No lost wake-up: a task blocked on a queue means that every item, or every free slot, is already spoken for by a
    task that was woken and has not resumed. Every step keeps this except a stopping task's resume and a queue reset. */
module KernelWakeup {
  import opened Selection
  import opened KernelState
  import opened KernelSteps
  import opened KernelMachine
  import opened KernelInvariant
  import opened KernelPrimitives

  /** Tasks blocked on the queue. */
  function Waiting(k: Kernel, q: nat, kind: WaitKind): set<nat> {
    set i | 0 < i < |k.tasks| && WaitsOn(k.tasks[i], q, kind)
  }

  predicate WokenTask(t: Task, q: nat, kind: WaitKind) {
    t.pc.Wait? && KindOf(t.pc.op) == kind && QueueOf(t.pc.op) == Some(q) && t.wait.result == Ready
  }

  /** Tasks released for the queue that have not resumed yet. */
  function Woken(k: Kernel, q: nat, kind: WaitKind): set<nat> {
    set i | 0 < i < |k.tasks| && WokenTask(k.tasks[i], q, kind)
  }

  /** What the tasks blocked with `kind` wait for: items to receive, or free slots to fill. */
  function Supply(x: Queue, kind: WaitKind): int {
    if kind == Receiving then |x.items| else x.capacity - |x.items|
  }

  /** While someone is still blocked, the queue is not deleted and the woken tasks leave over at most `spare` supply. */
  ghost predicate Spoken(k: Kernel, q: nat, kind: WaitKind, spare: nat)
    requires q < |k.queues|
  {
    Waiting(k, q, kind) != {} ==> !k.queues[q].deleted && Supply(k.queues[q], kind) <= |Woken(k, q, kind)| + spare
  }

  ghost predicate WakeOk(k: Kernel) {
    forall q {:trigger k.queues[q]} {:trigger Spoken(k, q, Receiving, 0)} {:trigger Spoken(k, q, Sending, 0)} ::
      0 <= q < |k.queues| ==> Spoken(k, q, Receiving, 0) && Spoken(k, q, Sending, 0)
  }

  // ----- changes that keep it

  /** The task is not newly blocked on a queue, and keeps a queue wake-up it was given. */
  predicate WakesLess(t: Task, u: Task) {
    && (u.blocked && u.wait.queue.Some? ==> t.blocked && t.wait.queue == u.wait.queue && t.wait.kind == u.wait.kind)
    && (t.pc.Wait? && QueueOf(t.pc.op).Some? && t.wait.result == Ready ==> u.pc == t.pc && u.wait.result == Ready)
  }

  /** No contents changed, nobody new is blocked on a queue, and nobody woken was forgotten. */
  ghost predicate WakesKept(k: Kernel, r: Kernel) {
    && |r.queues| == |k.queues| && |r.tasks| >= |k.tasks|
    && (forall q {:trigger r.queues[q]} :: 0 <= q < |k.queues| ==>
          r.queues[q].items == k.queues[q].items && r.queues[q].capacity == k.queues[q].capacity
          && r.queues[q].deleted == k.queues[q].deleted)
    && (forall i {:trigger r.tasks[i]} {:trigger k.tasks[i]} :: 0 <= i < |k.tasks| ==>
          WakesLess(k.tasks[i], r.tasks[i]))
    && (forall i {:trigger r.tasks[i]} :: |k.tasks| <= i < |r.tasks| ==>
          !r.tasks[i].blocked || r.tasks[i].wait.queue.None?)
  }

  lemma SpokenKept(k: Kernel, r: Kernel, q: nat, kind: WaitKind, spare: nat)
    requires WakesKept(k, r) && q < |k.queues| && Spoken(k, q, kind, spare) && (kind == Sending || kind == Receiving)
    ensures Spoken(r, q, kind, spare)
  {
    assert Waiting(r, q, kind) <= Waiting(k, q, kind);
    assert Woken(k, q, kind) <= Woken(r, q, kind);
    SubsetCount(Woken(k, q, kind), Woken(r, q, kind));
  }

  lemma WakeKept(k: Kernel, r: Kernel)
    requires WakesKept(k, r) && WakeOk(k)
    ensures WakeOk(r)
  {
    forall q | 0 <= q < |r.queues| ensures Spoken(r, q, Receiving, 0) && Spoken(r, q, Sending, 0) {
      SpokenKept(k, r, q, Receiving, 0);
      SpokenKept(k, r, q, Sending, 0);
    }
  }

  /** One task changed, in a way that keeps its place in the promise. */
  lemma OneTaskWakes(k: Kernel, r: Kernel, c: nat)
    requires c < |k.tasks| == |r.tasks| && r.tasks == k.tasks[c := r.tasks[c]] && WakesLess(k.tasks[c], r.tasks[c])
    requires r.queues == k.queues
    ensures WakesKept(k, r)
  {
  }

  lemma PreemptWakes(k: Kernel, th: Thread, use: Option<nat>)
    requires Calls(k, th) && InLine(k, th)
    ensures WakesKept(k, Preempt(k, th, use))
  {
    hide NextRunnable;
  }

  // ----- waking one waiter

  lemma ReleaseSpends(k: Kernel, q: nat, kind: WaitKind)
    requires TasksOk(k) && q < |k.queues| && (kind == Sending || kind == Receiving)
    requires Spoken(k, q, kind, 1)
    ensures Spoken(ReleaseQueueWaiter(k, q, kind), q, kind, 0)
  {
    var r := ReleaseQueueWaiter(k, q, kind);
    var chosen := QueueWaiter(k, q, kind);
    if chosen.Some? {
      var i := chosen.value;
      assert TaskOk(k, i);
      assert i in Waiting(k, q, kind) && i !in Woken(k, q, kind);
      assert Woken(r, q, kind) == Woken(k, q, kind) + {i};
    } else {
      NobodyWaits(k, q, kind);
    }
  }

  lemma NobodyWaits(k: Kernel, q: nat, kind: WaitKind)
    requires QueueWaiter(k, q, kind).None?
    ensures Waiting(k, q, kind) == {}
  {
    forall i | 0 < i < |k.tasks| ensures !WaitsOn(k.tasks[i], q, kind) {
      assert WaitEntries(k, q, kind)[i] == WaitEntry(k.tasks[i], q, kind);
    }
  }

  lemma ReleaseWakes(k: Kernel, q: nat, kind: WaitKind)
    requires TasksOk(k)
    ensures WakesKept(k, ReleaseQueueWaiter(k, q, kind))
  {
    var chosen := QueueWaiter(k, q, kind);
    if chosen.Some? { assert TaskOk(k, chosen.value); }
  }

  /** The contents of queue q just changed in a way that may leave one item, or one slot, unspoken for. */
  ghost predicate AlmostOk(k: Kernel, q: nat, kind: WaitKind) {
    q < |k.queues| && forall p {:trigger k.queues[p]} {:trigger AlmostAt(k, p, q, kind)} :: 0 <= p < |k.queues| ==>
      AlmostAt(k, p, q, kind)
  }

  ghost predicate AlmostAt(k: Kernel, p: nat, q: nat, kind: WaitKind)
    requires p < |k.queues|
  {
    && Spoken(k, p, Receiving, if p == q && kind == Receiving then 1 else 0)
    && Spoken(k, p, Sending, if p == q && kind == Sending then 1 else 0)
  }

  lemma PublishWakes(k: Kernel, th: Thread, q: nat, kind: WaitKind)
    requires TasksOk(k) && AlmostOk(k, q, kind) && (kind == Sending || kind == Receiving) && Calls(k, th)
    ensures WakeOk(Publish(k, th, q, kind))
  {
    var released := ReleaseQueueWaiter(k, q, kind);
    AlmostSpent(k, q, kind);
    CallerStaysUnblocked(k, q, kind, th);
    hide TasksOk, WakesKept, WakeOk;
    DispatchWakes(released);
    WakeKept(released, Dispatch(released));
    PreemptWakes(Dispatch(released), th, Some(q));
    WakeKept(Dispatch(released), Publish(k, th, q, kind));
  }

  lemma AlmostSpent(k: Kernel, q: nat, kind: WaitKind)
    requires TasksOk(k) && AlmostOk(k, q, kind) && (kind == Sending || kind == Receiving)
    ensures WakeOk(ReleaseQueueWaiter(k, q, kind))
  {
    var released := ReleaseQueueWaiter(k, q, kind);
    ReleaseWakes(k, q, kind);
    ReleaseSpends(k, q, kind);
    forall p | 0 <= p < |released.queues| ensures Spoken(released, p, Receiving, 0) && Spoken(released, p, Sending, 0) {
      if !(p == q && kind == Receiving) { SpokenKept(k, released, p, Receiving, 0); }
      if !(p == q && kind == Sending) { SpokenKept(k, released, p, Sending, 0); }
    }
  }

  lemma CallerStaysUnblocked(k: Kernel, q: nat, kind: WaitKind, th: Thread)
    requires TasksOk(k) && Calls(k, th) && (kind == Sending || kind == Receiving)
    ensures Calls(ReleaseQueueWaiter(k, q, kind), th) && InLine(ReleaseQueueWaiter(k, q, kind), th)
  {
    var chosen := QueueWaiter(k, q, kind);
    if chosen.Some? { assert TaskOk(k, chosen.value); }
    if th.Worker? { assert TaskOk(k, th.id); }
  }

  /** A thread in its own code is in no queue's list of blocked tasks. */
  predicate InLine(k: Kernel, th: Thread)
    requires IsThread(k, th)
  {
    th.Worker? && k.tasks[th.id].blocked ==> k.tasks[th.id].wait.queue.None?
  }

  // ----- steps that leave the queues alone

  lemma WakesTransitive(k: Kernel, mid: Kernel, r: Kernel)
    requires WakesKept(k, mid) && WakesKept(mid, r) && |mid.queues| == |r.queues|
    ensures WakesKept(k, r)
  {
    forall i | 0 <= i < |k.tasks| ensures WakesLess(k.tasks[i], r.tasks[i]) {
      assert WakesLess(k.tasks[i], mid.tasks[i]) && WakesLess(mid.tasks[i], r.tasks[i]);
    }
    forall i | |k.tasks| <= i < |r.tasks| ensures !r.tasks[i].blocked || r.tasks[i].wait.queue.None? {
      if i < |mid.tasks| { assert WakesLess(mid.tasks[i], r.tasks[i]); }
    }
  }

  lemma DispatchWakes(k: Kernel)
    ensures WakesKept(k, Dispatch(k))
  {
  }

  lemma TakeWakes(k: Kernel, s: Step)
    requires TasksOk(k) && s.DoTake? && Enabled(k, s)
    ensures WakesKept(k, Next(k, s))
  {
    assert TaskOk(k, s.c);
    hide TasksOk, TaskOk, WakesKept, WaitOn, Consume;
    SameWaits(k, k);
    TakeWaitWakes(k, s.c, s.clear, s.ticks);
    if k.tasks[s.c].notes.count > 0 { TakeCountWakes(k, s.c, s.clear); }
  }

  lemma TakeCountWakes(k: Kernel, c: nat, clear: bool)
    requires c < |k.tasks| && k.tasks[c].notes.count > 0
    ensures WakesKept(k, Consume(k, c, clear))
  {
  }

  lemma TakeWaitWakes(k: Kernel, c: nat, clear: bool, ticks: nat)
    requires c < |k.tasks| && k.tasks[c].pc == Code
    ensures WakesKept(k, WaitOn(k, c, TakeOp(clear), ticks))
  {
    var passed := PassThrough(k, c, TakeOp(clear), ticks, Code);
    var blocked := BlockIn(k, c, TakeOp(clear), ticks);
    assert WakesKept(k, passed) && WakesKept(k, blocked);
    hide WakesKept, PassThrough, BlockIn;
    LastWakes(k, passed);
    LastWakes(k, blocked);
  }

  lemma DelayWakes(k: Kernel, s: Step)
    requires TasksOk(k) && s.DoDelay? && Enabled(k, s)
    ensures WakesKept(k, Next(k, s))
  {
    var DoDelay(c, ticks) := s;
    assert TaskOk(k, c);
    hide TasksOk, TaskOk;
    if ticks == 0 {
      RequeueWakes(k, GiveUpTurn(k, c), c, Turn(None));
    } else if StoppingThread(k, Worker(c)) {
      PassThroughWakes(k, c, ticks);
    } else {
      BlockInWakes(k, c, ticks);
    }
  }

  lemma PassThroughWakes(k: Kernel, c: nat, ticks: nat)
    requires c < |k.tasks| && k.tasks[c].pc == Code
    ensures WakesKept(k, Dispatch(PassThrough(k, c, DelayOp, ticks, Turn(None))))
  {
  }

  lemma BlockInWakes(k: Kernel, c: nat, ticks: nat)
    requires c < |k.tasks| && k.tasks[c].pc == Code
    ensures WakesKept(k, Dispatch(BlockIn(k, c, DelayOp, ticks)))
    ensures WakesKept(k, Dispatch(Unblock(Dispatch(BlockIn(k, c, DelayOp, ticks)), c, Turn(None))))
  {
    hide NextRunnable;
  }

  lemma RequeueWakes(k: Kernel, raised: Kernel, c: nat, pc: Pc)
    requires c < |k.tasks| && !k.tasks[c].pc.Wait? && (raised == k || raised == GiveUpTurn(k, c))
    ensures WakesKept(k, Requeue(raised, c, pc))
  {
    var queued := QueueUp(raised, c, pc);
    assert WakesKept(k, queued);
    UnparkWakes(Dispatch(queued), c);
    hide WakesKept, QueueUp, Unpark;
    LastWakes(k, queued);
    WakesTransitive(k, Dispatch(queued), Unpark(Dispatch(queued), c));
    LastWakes(k, Unpark(Dispatch(queued), c));
  }

  lemma UnparkWakes(k: Kernel, c: nat)
    requires c < |k.tasks|
    ensures WakesKept(k, Unpark(k, c))
  {
  }

  lemma LastWakes(k: Kernel, r: Kernel)
    requires WakesKept(k, r)
    ensures WakesKept(k, Dispatch(r))
  {
    DispatchWakes(r);
    WakesTransitive(k, r, Dispatch(r));
  }

  lemma PreemptQueues(k: Kernel, th: Thread, use: Option<nat>)
    requires IsThread(k, th)
    ensures |Preempt(k, th, use).queues| == |k.queues|
  {
  }

  lemma GiveWakes(k: Kernel, th: Thread, target: nat)
    requires TasksOk(k) && Enabled(k, DoGive(th, target))
    ensures WakesKept(k, Give(k, th, target))
  {
    hide NextRunnable, WakesKept, Preempt;
    assert TaskOk(k, target);
    if th.Worker? { assert TaskOk(k, th.id); }
    var counted := SetTask(k, target, GivenTask(k.tasks[target]));
    OneTaskWakes(k, counted, target);
    LastWakes(k, counted);
    PreemptWakes(Dispatch(counted), th, None);
    PreemptQueues(Dispatch(counted), th, None);
    WakesTransitive(k, Dispatch(counted), Give(k, th, target));
  }

  lemma LockWakes(k: Kernel, th: Thread, m: nat)
    requires TasksOk(k) && Enabled(k, DoLock(th, m))
    ensures WakesKept(k, Lock(k, th, m))
  {
    if k.mutexes[m].locked && th.Worker? {
      BlockedLockWakes(k, th.id, m);
    } else {
      hide WakesKept;
      SameWaits(k, Lock(k, th, m));
    }
  }

  lemma SameWaits(k: Kernel, r: Kernel)
    requires r.tasks == k.tasks && r.queues == k.queues
    ensures WakesKept(k, r)
  {
  }

  lemma BlockedLockWakes(k: Kernel, c: nat, m: nat)
    requires c < |k.tasks| && k.tasks[c].pc == Code && m < |k.mutexes| && k.mutexes[m].locked
    ensures WakesKept(k, Lock(k, Worker(c), m))
  {
    hide WakesKept, NextRunnable;
    OneTaskWakes(k, Lock(k, Worker(c), m), c);
  }

  lemma ReleaseMutexWakes(k: Kernel, m: nat, th: Thread)
    requires KernelOk(k) && m < |k.mutexes| && Calls(k, th) && InLine(k, th)
    ensures WakesKept(k, ReleaseMutex(k, m))
    ensures Calls(ReleaseMutex(k, m), th) && InLine(ReleaseMutex(k, m), th)
  {
    var chosen := Select(LockEntries(k, m));
    if chosen.Some? {
      var w := k.mutexes[m].waiters[chosen.value];
      assert MutexOk(k, m) && LinkOk(k, m, w);
      hide KernelOk;
      GrantWakes(k, m, w, th);
    }
  }

  lemma GrantWakes(k: Kernel, m: nat, w: Waiter, th: Thread)
    requires m < |k.mutexes| && Calls(k, th) && InLine(k, th) && IsThread(k, w.thread) && PcOf(k, w.thread).LockWait?
    ensures WakesKept(k, Grant(k, m, w))
    ensures Calls(Grant(k, m, w), th) && InLine(Grant(k, m, w), th)
  {
  }

  lemma UnlockWakes(k: Kernel, th: Thread, m: nat)
    requires KernelOk(k) && Enabled(k, DoUnlock(th, m))
    ensures WakesKept(k, Unlock(k, th, m))
  {
    if th.Worker? { assert TaskOk(k, th.id); }
    ReleaseMutexWakes(k, m, th);
    hide KernelOk, ReleaseMutex;
    PreemptWakes(ReleaseMutex(k, m), th, None);
    WakesTransitive(k, ReleaseMutex(k, m), Unlock(k, th, m));
  }

  lemma CreateWakes(k: Kernel, th: Thread, priority: nat, bytes: nat)
    requires TasksOk(k) && Enabled(k, DoCreate(th, priority, bytes))
    ensures WakesKept(k, Create(k, th, priority, bytes))
  {
    hide NextRunnable;
    if th.Worker? { assert TaskOk(k, th.id); }
    var r := WithNewTask(k, priority, bytes);
    if !k.stopping {
      PreemptWakes(r, th, None);
      WakesTransitive(k, r, Create(k, th, priority, bytes));
    }
  }

  lemma LaterWakes(k: Kernel, later: Kernel, due: bool)
    requires WakesKept(k, later) && |later.tasks| > 0
    ensures WakesKept(k, TimerDue(later, due))
  {
    hide TimerDue, WakesKept;
    TimerDueWakes(later, due);
    SameQueues(later, due);
    WakesTransitive(k, later, TimerDue(later, due));
  }

  lemma AdvanceWakes(k: Kernel, elapsed: nat, due: bool)
    requires TasksOk(k) && |k.tasks| > 0
    ensures WakesKept(k, Advance(k, elapsed, due))
  {
    hide TasksOk, WakesKept, TimerDue;
    DueWakes(k, k.micros + elapsed);
    LaterWakes(k, ReleaseDue(k.(micros := k.micros + elapsed)), due);
  }

  lemma SameQueues(k: Kernel, due: bool)
    requires |k.tasks| > 0
    ensures TimerDue(k, due).queues == k.queues
  {
  }

  lemma DueWakes(k: Kernel, micros: nat)
    requires TasksOk(k)
    ensures WakesKept(k, ReleaseDue(k.(micros := micros))) && |ReleaseDue(k.(micros := micros)).tasks| > 0
  {
    var later := ReleaseDue(k.(micros := micros));
    forall i | 0 <= i < |k.tasks| ensures WakesLess(k.tasks[i], later.tasks[i]) { assert TaskOk(k, i); }
  }

  lemma TimerDueWakes(k: Kernel, due: bool)
    requires |k.tasks| > 0
    ensures WakesKept(k, TimerDue(k, due))
  {
    hide NextRunnable;
  }

  /** Steps that change one task, which is in no queue's list. */
  lemma SimpleWakes(k: Kernel, s: Step)
    requires KernelOk(k) && Enabled(k, s)
    requires s.DoTakeTurn? || s.DoTryLock? || s.DoLockReturn? || s.DoFinish? || s.DoJoin? || s.DoPollJoin?
             || s.DoCompleteJoin?
    ensures WakesKept(k, Next(k, s))
  {
    hide KernelOk, WakesKept;
    match s
    case DoTakeTurn(c) => TurnWakes(k, c);
    case DoTryLock(th, m) => SetMutexWakes(k, Next(k, s));
    case DoLockReturn(th) => LockReturnWakes(k, th);
    case DoFinish(c) => FinishWakes(k, c);
    case DoJoin(th, target) => SetPcWakes(k, th, Join(target));
    case DoPollJoin(th) => JoinWakes(k, th, PcOf(k, th).target);
    case DoCompleteJoin(th) => JoinWakes(k, th, PcOf(k, th).target);
  }

  lemma TurnWakes(k: Kernel, c: nat)
    requires c < |k.tasks| && k.tasks[c].pc.Turn?
    ensures WakesKept(k, TakeTurn(k, c))
  {
  }

  lemma SetMutexWakes(k: Kernel, r: Kernel)
    requires r == k.(mutexes := r.mutexes)
    ensures WakesKept(k, r)
  {
  }

  lemma LockReturnWakes(k: Kernel, th: Thread)
    requires IsThread(k, th) && PcOf(k, th).LockWait? && PcOf(k, th).mutex < |k.mutexes|
    ensures WakesKept(k, LockReturn(k, th))
  {
  }

  lemma FinishWakes(k: Kernel, c: nat)
    requires c < |k.tasks| && k.tasks[c].pc.Code?
    ensures WakesKept(k, Finish(k, c))
  {
  }

  lemma SetPcWakes(k: Kernel, th: Thread, pc: Pc)
    requires IsThread(k, th) && !PcOf(k, th).Wait?
    ensures WakesKept(k, SetPc(k, th, pc))
  {
  }

  lemma JoinWakes(k: Kernel, th: Thread, target: nat)
    requires IsThread(k, th) && (PcOf(k, th) == Join(target) || PcOf(k, th) == Claimed(target))
    requires target < |k.tasks|
    ensures PcOf(k, th).Join? ==> WakesKept(k, PollJoin(k, th))
    ensures PcOf(k, th).Claimed? ==> WakesKept(k, CompleteJoin(k, th))
  {
    hide WakesKept;
    SameWaits(k, k);
    SetPcWakes(k, th, Code);
    var t := k.tasks[target];
    var life := if PcOf(k, th).Join? then t.life.(cycle := Joining, claimant := Some(th))
                else t.life.(cycle := Joined, joins := t.life.joins + 1);
    var next := if PcOf(k, th).Join? then Claimed(target) else Code;
    var lived := SetTask(k, target, t.(life := life));
    OneTaskWakes(k, lived, target);
    SetPcWakes(lived, th, next);
    WakesTransitive(k, lived, SetPc(lived, th, next));
  }

  lemma EnterTimerWakes(k: Kernel)
    requires |k.tasks| > 0 && k.tasks[0].pc == Idle
    ensures WakesKept(k, EnterTimer(k))
  {
  }

  lemma StartTimerWakes(k: Kernel)
    requires |k.tasks| > 0 && k.tasks[0].pc == Turn(None)
    ensures WakesKept(k, StartTimer(k))
  {
  }

  lemma ExitTimerWakes(k: Kernel, due: bool)
    requires |k.tasks| > 0 && !k.tasks[0].pc.Wait?
    ensures WakesKept(k, ExitTimer(k, due))
  {
  }

  lemma ParkWakes(k: Kernel)
    ensures WakesKept(k, Park(k))
  {
  }

  lemma LockCancelWakes(k: Kernel, th: Thread)
    requires KernelOk(k) && Enabled(k, DoLockCancel(th))
    ensures WakesKept(k, LockCancel(k, th))
  {
    var m := PcOf(k, th).mutex;
    var left := SetPc(k, th, Code);
    LeftInLine(k, th);
    SetPcWakes(k, th, Code);
    if PcOf(k, th).granted {
      LeftMutexWakes(k, th, m);
    } else {
      SetMutexWakes(left, LockCancel(k, th));
    }
    hide KernelOk, ReleaseMutex;
    WakesTransitive(k, left, LockCancel(k, th));
  }

  lemma LeftInLine(k: Kernel, th: Thread)
    requires KernelOk(k) && IsThread(k, th) && PcOf(k, th).LockWait?
    ensures Calls(SetPc(k, th, Code), th) && InLine(SetPc(k, th, Code), th)
  {
    if th.Worker? { assert TaskOk(k, th.id); }
  }

  lemma LeftMutexWakes(k: Kernel, th: Thread, m: nat)
    requires KernelOk(k) && IsThread(k, th) && PcOf(k, th).LockWait? && PcOf(k, th).granted && m < |k.mutexes|
    requires Calls(SetPc(k, th, Code), th) && InLine(SetPc(k, th, Code), th)
    ensures WakesKept(SetPc(k, th, Code), ReleaseMutex(SetPc(k, th, Code), m))
    ensures |ReleaseMutex(SetPc(k, th, Code), m).queues| == |k.queues|
  {
    var left := SetPc(k, th, Code);
    var chosen := Select(LockEntries(left, m));
    hide KernelOk, Grant, WakesKept, LockEntries, Select;
    if chosen.Some? {
      LinkedStays(k, th, m, chosen.value);
      GrantWakes(left, m, left.mutexes[m].waiters[chosen.value], th);
      GrantQueues(left, m, chosen.value);
    } else {
      SetMutexWakes(left, ReleaseMutex(left, m));
    }
  }

  lemma GrantQueues(k: Kernel, m: nat, j: nat)
    requires m < |k.mutexes| && j < |k.mutexes[m].waiters| && IsThread(k, k.mutexes[m].waiters[j].thread)
    ensures |Grant(k, m, k.mutexes[m].waiters[j]).queues| == |k.queues|
  {
  }

  /** A linked waiter is still waiting after the thread that was granted the mutex left. */
  lemma LinkedStays(k: Kernel, th: Thread, m: nat, j: nat)
    requires KernelOk(k) && IsThread(k, th) && PcOf(k, th).LockWait? && PcOf(k, th).granted && m < |k.mutexes|
    requires j < |k.mutexes[m].waiters|
    ensures var w := k.mutexes[m].waiters[j];
            IsThread(k, w.thread) && PcOf(SetPc(k, th, Code), w.thread) == PcOf(k, w.thread)
              && PcOf(k, w.thread).LockWait?
  {
    assert MutexOk(k, m) && LinkOk(k, m, k.mutexes[m].waiters[j]);
  }

  lemma DeleteWakes(k: Kernel, th: Thread, target: nat)
    requires TasksOk(k) && Enabled(k, DoDelete(th, target))
    ensures WakesKept(k, Delete(k, th, target))
  {
    assert TaskOk(k, target);
    hide TasksOk, WakesKept;
    var stopped := RequestStop(k, target);
    OneTaskWakes(k, stopped, target);
    if th != Worker(target) {
      SetPcWakes(stopped, th, Join(target));
      WakesTransitive(k, stopped, Delete(k, th, target));
    }
  }

  lemma StopAllWakes(k: Kernel)
    requires TasksOk(k)
    ensures WakesKept(k, StopAll(k))
  {
    forall i | 0 <= i < |k.tasks| ensures WakesLess(k.tasks[i], StopAll(k).tasks[i]) { assert TaskOk(k, i); }
  }

  lemma EndDrainWakes(k: Kernel, th: Thread)
    requires Enabled(k, DoEndDrain(th))
    ensures WakesKept(k, EndDrain(k, th))
  {
    var q := PcOf(k, th).queue;
    var next := DrainTurn(q, k.queues[q].users == 0);
    hide Requeue, WakesKept;
    SetPcWakes(k, th, next);
    if th.Worker? { RequeueWakes(k, k, th.id, next); }
  }

  lemma FreeQueueWakes(k: Kernel, th: Thread)
    requires Enabled(k, DoFreeQueue(th))
    ensures WakesKept(k, FreeQueue(k, th))
  {
  }

  lemma TeardownWakes(k: Kernel, s: Step)
    requires TasksOk(k) && (s.DoStop? || s.DoResetKernel?) && Enabled(k, s)
    ensures WakesKept(k, Next(k, s))
  {
  }

  /** Every step that is not a queue operation. */
  lemma OtherWakes(k: Kernel, s: Step)
    requires KernelOk(k) && Enabled(k, s)
    requires !s.DoSend? && !s.DoReceive? && !s.DoResume? && !s.DoNewQueue? && !s.DoResetQueue? && !s.DoDeleteQueue?
    ensures WakesKept(k, Next(k, s))
  {
    hide WakesKept, StampsOk, MutexesOk, JoinsOk, QueuesOk, TasksOk;
    if s.DoGive? { GiveWakes(k, s.th, s.target); }
    else if s.DoTake? { TakeWakes(k, s); }
    else if s.DoDelay? { DelayWakes(k, s); }
    else if s.DoLock? { LockWakes(k, s.th, s.mutex); }
    else if s.DoUnlock? { UnlockWakes(k, s.th, s.mutex); }
    else if s.DoLockCancel? { LockCancelWakes(k, s.th); }
    else if s.DoCreate? { CreateWakes(k, s.th, s.priority, s.bytes); }
    else if s.DoDelete? { DeleteWakes(k, s.th, s.target); }
    else if s.DoEndDrain? { EndDrainWakes(k, s.th); }
    else if s.DoFreeQueue? { FreeQueueWakes(k, s.th); }
    else if s.DoStopAll? { StopAllWakes(k); }
    else if s.DoStop? || s.DoResetKernel? { TeardownWakes(k, s); }
    else if s.DoAdvance? || s.DoTimerDue? || s.DoEnterTimer? || s.DoStartTimer? || s.DoExitTimer? { TimerWakes(k, s); }
    else if s.DoDispatch? { DispatchWakes(k); }
    else if s.DoReachTurn? { UnparkWakes(k, s.c); LastWakes(k, Unpark(k, s.c)); }
    else if s.DoPark? { ParkWakes(k); }
    else { SimpleWakes(k, s); }
  }

  lemma TimerWakes(k: Kernel, s: Step)
    requires KernelOk(k) && Enabled(k, s)
    requires s.DoAdvance? || s.DoTimerDue? || s.DoEnterTimer? || s.DoStartTimer? || s.DoExitTimer?
    ensures WakesKept(k, Next(k, s))
  {
    hide WakesKept, Advance, TimerDue, EnterTimer, StartTimer, ExitTimer;
    if s.DoAdvance? { AdvanceWakes(k, s.elapsed, s.due); }
    else if s.DoTimerDue? { TimerDueWakes(k, s.due); }
    else if s.DoEnterTimer? { EnterTimerWakes(k); }
    else if s.DoStartTimer? { StartTimerWakes(k); }
    else { ExitTimerWakes(k, s.due); }
  }

  // ----- queue operations

  /** A new item: one more for the receivers, one slot less for the senders. */
  lemma PushAlmost(k: Kernel, q: nat, item: Item, front: bool)
    requires WakeOk(k) && q < |k.queues| && !k.queues[q].deleted
    ensures AlmostOk(Push(k, q, item, front), q, Receiving)
  {
    var r := Push(k, q, item, front);
    forall p | 0 <= p < |r.queues| ensures AlmostAt(r, p, q, Receiving) {
      assert Spoken(k, p, Receiving, 0) && Spoken(k, p, Sending, 0);
      SameSets(k, r, p);
    }
  }

  lemma PopAlmost(k: Kernel, q: nat)
    requires WakeOk(k) && q < |k.queues| && k.queues[q].items != [] && !k.queues[q].deleted
    ensures AlmostOk(Pop(k, q), q, Sending)
  {
    var r := Pop(k, q);
    forall p | 0 <= p < |r.queues| ensures AlmostAt(r, p, q, Sending) {
      assert Spoken(k, p, Receiving, 0) && Spoken(k, p, Sending, 0);
      SameSets(k, r, p);
    }
  }

  lemma SameSets(k: Kernel, r: Kernel, q: nat)
    requires r.tasks == k.tasks
    ensures Waiting(r, q, Receiving) == Waiting(k, q, Receiving) && Waiting(r, q, Sending) == Waiting(k, q, Sending)
    ensures Woken(r, q, Receiving) == Woken(k, q, Receiving) && Woken(r, q, Sending) == Woken(k, q, Sending)
  {
  }

  /** Blocking on a queue: there is nothing to take, or no room. */
  lemma BlockSpoken(k: Kernel, c: nat, op: Op, ticks: nat, q: nat)
    requires WakeOk(k) && 0 < c < |k.tasks| && k.tasks[c].pc == Code && QueueOf(op) == Some(q) && q < |k.queues|
    requires !k.queues[q].deleted && Supply(k.queues[q], KindOf(op)) <= 0
    ensures WakeOk(BlockIn(k, c, op, ticks))
  {
    var r := BlockIn(k, c, op, ticks);
    forall p | 0 <= p < |r.queues| ensures Spoken(r, p, Receiving, 0) && Spoken(r, p, Sending, 0) {
      assert Spoken(k, p, Receiving, 0) && Spoken(k, p, Sending, 0);
      BlockedSets(k, c, op, ticks, p, Receiving);
      BlockedSets(k, c, op, ticks, p, Sending);
      assert r.queues[p] == k.queues[p].(users := r.queues[p].users);
    }
  }

  lemma BlockedSets(k: Kernel, c: nat, op: Op, ticks: nat, p: nat, kind: WaitKind)
    requires 0 < c < |k.tasks| && k.tasks[c].pc == Code
    ensures Woken(BlockIn(k, c, op, ticks), p, kind) == Woken(k, p, kind)
    ensures !(KindOf(op) == kind && QueueOf(op) == Some(p)) ==>
              Waiting(BlockIn(k, c, op, ticks), p, kind) <= Waiting(k, p, kind)
  {
  }

  /** The caller blocks, or passes through the wait because it is stopping. */
  lemma WaitOnSpoken(k: Kernel, c: nat, op: Op, ticks: nat, q: nat)
    requires WakeOk(k) && 0 < c < |k.tasks| && k.tasks[c].pc == Code && QueueOf(op) == Some(q) && q < |k.queues|
    requires !k.queues[q].deleted && Supply(k.queues[q], KindOf(op)) <= 0
    ensures WakeOk(WaitOn(k, c, op, ticks))
  {
    hide WakeOk, WakesKept;
    if StoppingThread(k, Worker(c)) {
      var passed := PassThrough(k, c, op, ticks, Code);
      PassedWakes(k, c, op, ticks);
      LastWakes(k, passed);
      WakeKept(k, Dispatch(passed));
    } else {
      var blocked := BlockIn(k, c, op, ticks);
      BlockSpoken(k, c, op, ticks, q);
      DispatchWakes(blocked);
      WakeKept(blocked, Dispatch(blocked));
    }
  }

  lemma PassedWakes(k: Kernel, c: nat, op: Op, ticks: nat)
    requires c < |k.tasks| && k.tasks[c].pc == Code
    ensures WakesKept(k, PassThrough(k, c, op, ticks, Code))
  {
  }

  lemma SendWakes(k: Kernel, s: Step)
    requires TasksOk(k) && WakeOk(k) && s.DoSend? && Enabled(k, s)
    ensures WakeOk(Next(k, s))
  {
    var DoSend(th, q, item, front, ticks) := s;
    hide WakeOk, TasksOk;
    if !(k.queues[q].deleted || |k.queues[q].items| < k.queues[q].capacity) && ticks != 0 {
      WaitOnSpoken(k, th.id, SendOp(q, item, front), ticks, q);
    } else if !k.queues[q].deleted && |k.queues[q].items| < k.queues[q].capacity && !StoppingThread(k, th) {
      PushAlmost(k, q, item, front);
      TasksOkPush(k, q, item, front);
      PublishWakes(Push(k, q, item, front), th, q, Receiving);
    }
  }

  lemma TasksOkPush(k: Kernel, q: nat, item: Item, front: bool)
    requires TasksOk(k) && q < |k.queues|
    ensures TasksOk(Push(k, q, item, front))
  {
    forall i | 0 <= i < |k.tasks| ensures TaskOk(Push(k, q, item, front), i) { assert TaskOk(k, i); }
  }

  lemma TasksOkPop(k: Kernel, q: nat)
    requires TasksOk(k) && q < |k.queues| && k.queues[q].items != []
    ensures TasksOk(Pop(k, q))
  {
    forall i | 0 <= i < |k.tasks| ensures TaskOk(Pop(k, q), i) { assert TaskOk(k, i); }
  }

  lemma ReceiveWakes(k: Kernel, s: Step)
    requires TasksOk(k) && WakeOk(k) && s.DoReceive? && Enabled(k, s)
    ensures WakeOk(Next(k, s))
  {
    var DoReceive(th, q, ticks) := s;
    hide WakeOk, TasksOk;
    if !k.queues[q].deleted && k.queues[q].items == [] && ticks != 0 {
      WaitOnSpoken(k, th.id, ReceiveOp(q), ticks, q);
    } else if !k.queues[q].deleted && k.queues[q].items != [] && !StoppingThread(k, th) {
      PopAlmost(k, q);
      TasksOkPop(k, q);
      PublishWakes(Pop(k, q), th, q, Sending);
    }
  }

  /** Leaving a wait uses up the wake-up the task was given, and nothing else. */
  lemma AwakenSets(k: Kernel, c: nat, q: nat, kind: WaitKind)
    requires TasksOk(k) && 0 < c < |k.tasks| && k.tasks[c].pc.Wait? && (kind == Sending || kind == Receiving)
    ensures Waiting(Awaken(k, c), q, kind) <= Waiting(k, q, kind)
    ensures |Woken(Awaken(k, c), q, kind)| == |Woken(k, q, kind)| - (if WokenTask(k.tasks[c], q, kind) then 1 else 0)
  {
    var r := Awaken(k, c);
    assert Woken(r, q, kind) == Woken(k, q, kind) - {c};
    assert WokenTask(k.tasks[c], q, kind) <==> c in Woken(k, q, kind);
  }

  lemma AwakenQueues(k: Kernel, c: nat, p: nat)
    requires c < |k.tasks| && k.tasks[c].pc.Wait? && p < |k.queues|
    ensures p < |Awaken(k, c).queues| == |k.queues| && Awaken(k, c).queues[p].items == k.queues[p].items
    ensures Awaken(k, c).queues[p].capacity == k.queues[p].capacity
            && Awaken(k, c).queues[p].deleted == k.queues[p].deleted
  {
  }

  /** A sender resumes and pushes: the slot it was promised is used, and there is a new item. */
  lemma ResumedPush(k: Kernel, c: nat)
    requires TasksOk(k) && WakeOk(k) && 0 < c < |k.tasks| && k.tasks[c].pc.Wait? && k.tasks[c].pc.op.SendOp?
    requires k.tasks[c].pc.op.queue < |k.queues| && !k.queues[k.tasks[c].pc.op.queue].deleted
    ensures k.tasks[c].pc.op.queue < |Dispatch(Awaken(k, c)).queues|
    ensures AlmostOk(Push(Dispatch(Awaken(k, c)), k.tasks[c].pc.op.queue, k.tasks[c].pc.op.item,
                          k.tasks[c].pc.op.front),
                     k.tasks[c].pc.op.queue, Receiving)
  {
    var SendOp(q, item, front) := k.tasks[c].pc.op;
    var woken := Dispatch(Awaken(k, c));
    AwakenQueues(k, c, q);
    var r := Push(woken, q, item, front);
    forall p | 0 <= p < |r.queues| ensures AlmostAt(r, p, q, Receiving) {
      assert Spoken(k, p, Receiving, 0) && Spoken(k, p, Sending, 0);
      AwakenSets(k, c, p, Receiving);
      AwakenSets(k, c, p, Sending);
      AwakenQueues(k, c, p);
      SameSets(Awaken(k, c), r, p);
    }
  }

  lemma ResumedPop(k: Kernel, c: nat)
    requires TasksOk(k) && WakeOk(k) && 0 < c < |k.tasks| && k.tasks[c].pc.Wait? && k.tasks[c].pc.op.ReceiveOp?
    requires k.tasks[c].pc.op.queue < |k.queues| && k.queues[k.tasks[c].pc.op.queue].items != []
    requires !k.queues[k.tasks[c].pc.op.queue].deleted
    ensures k.tasks[c].pc.op.queue < |Dispatch(Awaken(k, c)).queues|
    ensures Dispatch(Awaken(k, c)).queues[k.tasks[c].pc.op.queue].items != []
    ensures AlmostOk(Pop(Dispatch(Awaken(k, c)), k.tasks[c].pc.op.queue), k.tasks[c].pc.op.queue, Sending)
  {
    var q := k.tasks[c].pc.op.queue;
    var woken := Dispatch(Awaken(k, c));
    AwakenQueues(k, c, q);
    var r := Pop(woken, q);
    forall p | 0 <= p < |r.queues| ensures AlmostAt(r, p, q, Sending) {
      assert Spoken(k, p, Receiving, 0) && Spoken(k, p, Sending, 0);
      AwakenSets(k, c, p, Receiving);
      AwakenSets(k, c, p, Sending);
      AwakenQueues(k, c, p);
      SameSets(Awaken(k, c), r, p);
    }
  }

  /** A task leaves its wait and touches no queue: it was not promised anything it does not use. */
  lemma ResumedAway(k: Kernel, c: nat)
    requires TasksOk(k) && WakeOk(k) && 0 < c < |k.tasks| && k.tasks[c].pc.Wait?
    requires k.tasks[c].wait.result == Ready && QueueOf(k.tasks[c].pc.op).Some? ==>
               var q := k.tasks[c].pc.op.queue;
               q < |k.queues| && (k.queues[q].deleted || (k.tasks[c].pc.op.ReceiveOp? && k.queues[q].items == []))
    ensures WakeOk(Dispatch(Awaken(k, c)))
  {
    var r := Dispatch(Awaken(k, c));
    forall p | 0 <= p < |r.queues| ensures Spoken(r, p, Receiving, 0) && Spoken(r, p, Sending, 0) {
      assert p < |k.queues| && Spoken(k, p, Receiving, 0) && Spoken(k, p, Sending, 0);
      AwakenSets(k, c, p, Receiving);
      AwakenSets(k, c, p, Sending);
      AwakenQueues(k, c, p);
      SameSets(Awaken(k, c), r, p);
    }
  }

  /** A call that resumes, and need not unwind for a stop, uses what its task was woken for, or there is nothing. */
  lemma ResumeWakes(k: Kernel, c: nat)
    requires KernelOk(k) && WakeOk(k) && Enabled(k, DoResume(c)) && !StoppingThread(k, Worker(c))
    ensures WakeOk(Resume(k, c))
  {
    Facts(k, c);
    AwokenTasksOk(k, c);
    AwokenQueue(k, c);
    assert TasksOk(k);
    hide KernelOk, WakeOk, TasksOk;
    var woken := Dispatch(Awaken(k, c));
    var used := k.tasks[c].wait.result == Ready && !Abandoned(k, k.tasks[c].pc.op);
    match k.tasks[c].pc.op
    case SendOp(q, item, front) =>
      if used {
        ResumedPush(k, c);
        TasksOkPush(woken, q, item, front);
        PublishWakes(Push(woken, q, item, front), Worker(c), q, Receiving);
      } else {
        ResumedAway(k, c);
      }
    case ReceiveOp(q) =>
      if used && k.queues[q].items != [] {
        ResumedPop(k, c);
        TasksOkPop(woken, q);
        PublishWakes(Pop(woken, q), Worker(c), q, Sending);
      } else {
        ResumedAway(k, c);
      }
    case TakeOp(clear) =>
      ResumedAway(k, c);
      if woken.tasks[c].notes.count != 0 { ConsumeWakes(woken, c, clear); }
    case DelayOp => ResumedAway(k, c);
  }

  /** The queue of the call was deleted meanwhile. */
  predicate Abandoned(k: Kernel, op: Op) {
    QueueOf(op).Some? && QueueOf(op).value < |k.queues| && k.queues[QueueOf(op).value].deleted
  }

  lemma ConsumeWakes(k: Kernel, c: nat, clear: bool)
    requires WakeOk(k) && c < |k.tasks| && k.tasks[c].notes.count > 0
    ensures WakeOk(Consume(k, c, clear))
  {
    WakeKept(k, Consume(k, c, clear));
  }

  lemma AwokenTasksOk(k: Kernel, c: nat)
    requires KernelOk(k) && Enabled(k, DoResume(c))
    ensures TasksOk(Dispatch(Awaken(k, c))) && Calls(Dispatch(Awaken(k, c)), Worker(c))
  {
    AwakenKeeps(k, c);
    DispatchKeeps(Awaken(k, c));
  }

  lemma AwokenQueue(k: Kernel, c: nat)
    requires KernelOk(k) && c < |k.tasks| && k.tasks[c].pc.Wait?
    ensures QueueOf(k.tasks[c].pc.op).Some? ==>
              var q := QueueOf(k.tasks[c].pc.op).value;
              && q < |k.queues| == |Dispatch(Awaken(k, c)).queues|
              && Dispatch(Awaken(k, c)).queues[q].deleted == k.queues[q].deleted
              && Dispatch(Awaken(k, c)).queues[q].items == k.queues[q].items
  {
    Facts(k, c);
  }

  lemma NewQueueWakes(k: Kernel, capacity: nat)
    requires KernelOk(k) && WakeOk(k) && Enabled(k, DoNewQueue(capacity))
    ensures WakeOk(Next(k, DoNewQueue(capacity)))
  {
    var r := Next(k, DoNewQueue(capacity));
    forall p | 0 <= p < |r.queues| ensures Spoken(r, p, Receiving, 0) && Spoken(r, p, Sending, 0) {
      SameSets(k, r, p);
      if p < |k.queues| { assert Spoken(k, p, Receiving, 0) && Spoken(k, p, Sending, 0); } else { NobodyBlocked(k, p); }
    }
  }

  lemma NobodyBlocked(k: Kernel, q: nat)
    requires KernelOk(k) && q >= |k.queues|
    ensures Waiting(k, q, Receiving) == {} && Waiting(k, q, Sending) == {}
  {
    forall i | 0 < i < |k.tasks| ensures !(k.tasks[i].blocked && k.tasks[i].wait.queue == Some(q)) {
      Facts(k, i);
    }
  }

  /** Nobody waits on a deleted queue: all its waiters were cancelled, and the other queues are untouched. */
  lemma DeleteQueueWakes(k: Kernel, th: Thread, q: nat)
    requires KernelOk(k) && WakeOk(k) && Enabled(k, DoDeleteQueue(th, q))
    ensures WakeOk(DeleteQueue(k, th, q))
  {
    var released := ReleaseAllOn(MarkDeleted(k, q, th), q);
    CancelledSpoken(k, th, q);
    assert released.tasks[..] == released.tasks && IsThread(released, th);
    hide KernelOk, WakeOk, WakesKept, ReleaseAllOn, MarkDeleted, DrainBy;
    DispatchWakes(released);
    WakeKept(released, Dispatch(released));
    CallerAfterDelete(k, th, q);
    DrainByWakes(Dispatch(released), th, q);
    WakeKept(Dispatch(released), DrainBy(Dispatch(released), th, q));
  }

  lemma CallerAfterDelete(k: Kernel, th: Thread, q: nat)
    requires Enabled(k, DoDeleteQueue(th, q))
    ensures Calls(Dispatch(ReleaseAllOn(MarkDeleted(k, q, th), q)), th)
  {
  }

  lemma DrainByWakes(k: Kernel, th: Thread, q: nat)
    requires Calls(k, th)
    ensures WakesKept(k, DrainBy(k, th, q))
  {
  }

  lemma CancelledSpoken(k: Kernel, th: Thread, q: nat)
    requires TasksOk(k) && WakeOk(k) && q < |k.queues|
    ensures WakeOk(ReleaseAllOn(MarkDeleted(k, q, th), q))
  {
    var r := ReleaseAllOn(MarkDeleted(k, q, th), q);
    forall p | 0 <= p < |r.queues| ensures Spoken(r, p, Receiving, 0) && Spoken(r, p, Sending, 0) {
      assert Spoken(k, p, Receiving, 0) && Spoken(k, p, Sending, 0);
      CancelledSets(k, r, q, p, Receiving);
      CancelledSets(k, r, q, p, Sending);
    }
  }

  lemma CancelledSets(k: Kernel, r: Kernel, q: nat, p: nat, kind: WaitKind)
    requires TasksOk(k) && r.tasks == ReleaseAllOn(k, q).tasks
    ensures Waiting(r, p, kind) <= Waiting(k, p, kind) && |Woken(k, p, kind)| <= |Woken(r, p, kind)|
    ensures p == q ==> Waiting(r, p, kind) == {}
  {
    forall i | i in Woken(k, p, kind) ensures i in Woken(r, p, kind) { assert TaskOk(k, i); }
    SubsetCount(Woken(k, p, kind), Woken(r, p, kind));
  }

  /** Every step but a stopping task's resume and a queue reset keeps the promise. */
  lemma StepWakes(k: Kernel, s: Step)
    requires KernelOk(k) && WakeOk(k) && Enabled(k, s)
    requires !s.DoResetQueue? && (s.DoResume? ==> !StoppingThread(k, Worker(s.c)))
    ensures WakeOk(Next(k, s))
  {
    assert TasksOk(k);
    hide KernelOk, WakeOk, WakesKept, TasksOk, Resume, DeleteQueue;
    if s.DoSend? { SendWakes(k, s); }
    else if s.DoReceive? { ReceiveWakes(k, s); }
    else if s.DoResume? { ResumeWakes(k, s.c); }
    else if s.DoNewQueue? { NewQueueWakes(k, s.capacity); }
    else if s.DoDeleteQueue? { DeleteQueueWakes(k, s.th, s.queue); }
    else { OtherWakes(k, s); WakeKept(k, Next(k, s)); }
  }
}
