/** What a step may do to what it is not about: priorities, lifecycles, heap charges and histories only move forward,
    a released wait keeps its result until its task resumes, and mutexes and queue contents change only in their own
    steps. The relation is transitive, so it also holds across whole runs. */
module KernelProgress {
  import opened Selection
  import opened KernelState
  import opened KernelSteps
  import opened KernelMachine
  import opened KernelInvariant
  import opened KernelPrimitives
  import opened MutexSafety
  import opened KernelSafety

  /** What a step is about: the thread that takes it, and which shared parts it may change. */
  datatype Scope = Scope(
    actor: Option<Thread>,
    late: bool,      // it moves the clock, and may time waits out
    mutexes: bool,
    contents: bool,  // of queues
    waits: bool,     // it may begin a timed wait
    stops: bool,
    wakes: bool,     // it may release a wait because what was waited for is there
    cancels: bool,   // it may cancel waits
    timer: bool)     // the timer service may become due or cease to be

  function Rank(c: Lifecycle): nat {
    match c
    case Running => 0
    case StopRequested => 1
    case Finished => 2
    case Joining => 3
    case Joined => 4
  }

  predicate TaskOnward(t: Task, u: Task) {
    && u.priority == t.priority && (t.stopping ==> u.stopping)
    && Rank(t.life.cycle) <= Rank(u.life.cycle) && t.life.joins <= u.life.joins
    && (t.life.claimant.Some? ==> u.life.claimant == t.life.claimant)
    && u.heap.charge == t.heap.charge && t.heap.released <= u.heap.released
    && t.notes.gives <= u.notes.gives && t.notes.cleared <= u.notes.cleared && t.notes.singles <= u.notes.singles
  }

  /** Another thread's step moves a thread in no other way than granting it the mutex it waits for. */
  predicate Bystands(pc: Pc, next: Pc) {
    next == pc || (pc.LockWait? && next == pc.(granted := true))
  }

  /** What another thread's step may do to a task's wait: it ends with the result its kind of step gives, and keeps
      it. */
  predicate WaitStep(t: Task, u: Task, scope: Scope) {
    && Bystands(t.pc, u.pc)
    && (t.pc.Wait? ==>
          if t.blocked then
            if u.blocked then u.wait == t.wait
            else
              || (u.wait.result == Timeout && scope.late) || (u.wait.result == Ready && scope.wakes)
              || (u.wait.result == Cancelled && scope.cancels)
          else !u.blocked && u.wait.result == t.wait.result)
  }

  /** What another thread's step may do to a task's place in line: released from a wait, it takes the place it has had
      since it blocked; otherwise its place stays. */
  predicate PlaceKept(t: Task, u: Task) {
    && (t.runnable ==> u.runnable || u.stopping)
    && (if t.blocked && !u.blocked then u.readyOrder == t.waitOrder && (u.runnable || u.stopping)
        else u.blocked == t.blocked && u.readyOrder == t.readyOrder && u.waitOrder == t.waitOrder)
  }

  /** The timer service queues by the clock's steps. */
  predicate BystandsAt(i: nat, t: Task, u: Task, scope: Scope) {
    WaitStep(t, u, scope) && (PlaceKept(t, u) || (i == 0 && scope.timer))
  }

  /** No timed wait begins. */
  predicate NoNewWait(t: Task, u: Task) {
    u.blocked && u.wait.timed ==> t.blocked && u.wait == t.wait
  }

  predicate QueueOnward(x: Queue, y: Queue, contents: bool) {
    && y.capacity == x.capacity && (x.deleted ==> y.deleted) && (x.freed ==> y.freed)
    && x.accepted <= y.accepted && x.received <= y.received && x.discarded <= y.discarded
    && (!contents ==>
          y.items == x.items && y.accepted == x.accepted && y.received == x.received && y.discarded == x.discarded)
  }

  ghost predicate Onward(k: Kernel, r: Kernel, scope: Scope) {
    && |k.tasks| <= |r.tasks| && |r.hosts| == |k.hosts| && |k.queues| <= |r.queues| && |r.mutexes| == |k.mutexes|
    && (forall i {:trigger r.tasks[i]} {:trigger k.tasks[i]} :: 0 <= i < |k.tasks| ==>
          && TaskOnward(k.tasks[i], r.tasks[i]) && (scope.waits || NoNewWait(k.tasks[i], r.tasks[i]))
          && (r.tasks[i].stopping ==> k.tasks[i].stopping || scope.stops)
          && (Some(Worker(i)) != scope.actor ==> BystandsAt(i, k.tasks[i], r.tasks[i], scope)))
    && (forall q {:trigger r.queues[q]} {:trigger k.queues[q]} :: 0 <= q < |k.queues| ==>
          QueueOnward(k.queues[q], r.queues[q], scope.contents))
    && (scope.waits ==> |r.tasks| == |k.tasks|) && (scope.contents ==> |r.queues| == |k.queues|)
    && (forall i {:trigger r.tasks[i]} :: |k.tasks| <= i < |r.tasks| ==>
          !(r.tasks[i].blocked && r.tasks[i].wait.timed) && (r.tasks[i].stopping ==> scope.stops))
    && (r.stopping ==> k.stopping || scope.stops)
    && (forall q {:trigger r.queues[q]} :: |k.queues| <= q < |r.queues| ==> r.queues[q].items == [])
    && (forall n {:trigger r.hosts[n]} {:trigger k.hosts[n]} :: 0 <= n < |k.hosts| ==>
          Some(Host(n)) != scope.actor ==> Bystands(k.hosts[n], r.hosts[n]))
    && (!scope.mutexes ==> r.mutexes == k.mutexes) && (!scope.late ==> r.micros == k.micros)
  }

  lemma OnwardThen(k: Kernel, mid: Kernel, r: Kernel, scope: Scope)
    requires Onward(k, mid, scope) && Onward(mid, r, scope)
    ensures Onward(k, r, scope)
  {
    forall i | 0 <= i < |k.tasks|
      ensures TaskOnward(k.tasks[i], r.tasks[i]) && (scope.waits || NoNewWait(k.tasks[i], r.tasks[i]))
      ensures Some(Worker(i)) != scope.actor ==> BystandsAt(i, k.tasks[i], r.tasks[i], scope)
      ensures r.tasks[i].stopping ==> k.tasks[i].stopping || scope.stops
    {
      assert TaskOnward(k.tasks[i], mid.tasks[i]) && TaskOnward(mid.tasks[i], r.tasks[i]);
    }
    forall q | 0 <= q < |k.queues| ensures QueueOnward(k.queues[q], r.queues[q], scope.contents) {
      assert QueueOnward(k.queues[q], mid.queues[q], scope.contents)
             && QueueOnward(mid.queues[q], r.queues[q], scope.contents);
    }
  }

  /** The scope of each step. */
  function ScopeOf(s: Step): Scope {
    match s
    case DoSend(th, _, _, _, _) => Scope(Some(th), false, false, true, true, false, true, false, false)
    case DoReceive(th, _, _) => Scope(Some(th), false, false, true, true, false, true, false, false)
    case DoGive(th, _) => Scope(Some(th), false, false, false, false, false, true, false, false)
    case DoTake(c, _, _) => Scope(Some(Worker(c)), false, false, false, true, false, false, false, false)
    case DoDelay(c, _) => Scope(Some(Worker(c)), false, false, false, true, false, false, false, false)
    case DoResume(c) => Scope(Some(Worker(c)), false, false, true, false, false, true, false, false)
    case DoTakeTurn(c) => Scope(Some(Worker(c)), false, false, false, false, false, false, false, false)
    case DoLock(th, _) => Scope(Some(th), false, true, false, false, false, false, false, false)
    case DoTryLock(th, _) => Scope(Some(th), false, true, false, false, false, false, false, false)
    case DoUnlock(th, _) => Scope(Some(th), false, true, false, false, false, false, false, false)
    case DoLockReturn(th) => Scope(Some(th), false, true, false, false, false, false, false, false)
    case DoLockCancel(th) => Scope(Some(th), false, true, false, false, false, false, false, false)
    case DoCreate(th, _, _) => Scope(Some(th), false, false, false, false, false, false, false, false)
    case DoFinish(c) => Scope(Some(Worker(c)), false, false, false, false, false, false, false, false)
    case DoDelete(th, _) => Scope(Some(th), false, false, false, false, true, false, true, false)
    case DoJoin(th, _) => Scope(Some(th), false, false, false, false, false, false, false, false)
    case DoPollJoin(th) => Scope(Some(th), false, false, false, false, false, false, false, false)
    case DoCompleteJoin(th) => Scope(Some(th), false, false, false, false, false, false, false, false)
    case DoNewQueue(_) => Scope(None, false, false, false, false, false, false, false, false)
    case DoResetQueue(th, _) => Scope(Some(th), false, false, true, false, false, true, false, false)
    case DoDeleteQueue(th, _) => Scope(Some(th), false, false, true, false, false, false, true, false)
    case DoEndDrain(th) => Scope(Some(th), false, false, false, false, false, false, false, false)
    case DoFreeQueue(th) => Scope(Some(th), false, false, false, false, false, false, false, false)
    case DoAdvance(_, _) => Scope(None, true, false, false, false, false, false, false, true)
    case DoTimerDue(_) => Scope(None, false, false, false, false, false, false, false, true)
    case DoEnterTimer => Scope(Some(Worker(0)), false, false, false, false, false, false, false, false)
    case DoStartTimer => Scope(Some(Worker(0)), false, false, false, false, false, false, false, false)
    case DoExitTimer(_) => Scope(Some(Worker(0)), false, false, false, false, false, false, false, false)
    case DoDispatch => Scope(None, false, false, false, false, false, false, false, false)
    case DoReachTurn(_) => Scope(None, false, false, false, false, false, false, false, false)
    case DoPark => Scope(None, false, false, false, false, false, false, false, false)
    case DoStop => Scope(None, false, false, false, false, true, false, false, false)
    case DoStopAll => Scope(None, false, false, false, false, true, false, true, false)
    case DoResetKernel => Scope(Some(Worker(0)), false, false, false, false, false, false, false, false)
  }

  // ----- the pieces of a step

  lemma DispatchOnward(k: Kernel, scope: Scope)
    ensures Onward(k, Dispatch(k), scope)
  {
    hide NextRunnable;
  }

  /** One task changed, and no shared part. */
  lemma OneTaskOnward(k: Kernel, r: Kernel, c: nat, scope: Scope)
    requires c < |k.tasks| == |r.tasks| && r.tasks == k.tasks[c := r.tasks[c]]
    requires r.hosts == k.hosts && r.queues == k.queues && r.mutexes == k.mutexes && r.micros == k.micros
    requires TaskOnward(k.tasks[c], r.tasks[c]) && (scope.waits || NoNewWait(k.tasks[c], r.tasks[c]))
    requires (r.tasks[c].stopping ==> k.tasks[c].stopping || scope.stops) && (r.stopping ==> k.stopping || scope.stops)
    requires (Some(Worker(c)) != scope.actor ==> BystandsAt(c, k.tasks[c], r.tasks[c], scope))
    ensures Onward(k, r, scope)
  {
  }

  lemma UseOnward(k: Kernel, use: Option<nat>, scope: Scope)
    ensures Onward(k, EnterUse(k, use), scope) && Onward(k, LeaveUse(k, use), scope)
  {
    OnwardSelf(k, scope);
    if use.Some? && use.value < |k.queues| {
      CountOnward(k, use.value, k.queues[use.value].users + 1, scope);
      if k.queues[use.value].users > 0 { CountOnward(k, use.value, k.queues[use.value].users - 1, scope); }
    }
    hide Onward;
  }

  lemma CountOnward(k: Kernel, q: nat, users: nat, scope: Scope)
    requires q < |k.queues|
    ensures Onward(k, SetQueue(k, q, k.queues[q].(users := users)), scope)
  {
  }

  lemma PreemptOnward(k: Kernel, th: Thread, use: Option<nat>, scope: Scope)
    requires IsThread(k, th) && scope.actor == Some(th)
    ensures Onward(k, Preempt(k, th, use), scope)
  {
    hide Onward, SwitchOut, Dispatch;
    OnwardSelf(k, scope);
    if MustPreempt(k, th) {
      SwitchOutOnward(k, th.id, use, scope);
      LastOnward(k, SwitchOut(k, th.id, use), scope);
    }
  }

  lemma SwitchOutOnward(k: Kernel, c: nat, use: Option<nat>, scope: Scope)
    requires c < |k.tasks| && scope.actor == Some(Worker(c))
    ensures Onward(k, SwitchOut(k, c, use), scope)
  {
    hide Onward, EnterUse;
    var out := SetTask(k, c, k.tasks[c].(readyOrder := k.nextReady, parked := false, pc := Turn(use)))
               .(running := None, nextReady := k.nextReady + 1);
    OneTaskOnward(k, out, c, scope);
    UseOnward(out, use, scope);
    OnwardThen(k, out, EnterUse(out, use), scope);
  }

  lemma OnwardSelf(k: Kernel, scope: Scope)
    ensures Onward(k, k, scope)
  {
  }

  lemma ReleaseOnward(k: Kernel, i: nat, result: WaitResult, scope: Scope)
    requires i < |k.tasks| && k.tasks[i].blocked
    requires (result == Timeout && scope.late) || (result == Ready && scope.wakes)
             || (result == Cancelled && scope.cancels)
    ensures Onward(k, Release(k, i, result), scope)
  {
  }

  lemma PublishOnward(k: Kernel, th: Thread, q: nat, kind: WaitKind, scope: Scope)
    requires IsThread(k, th) && scope.actor == Some(th) && scope.wakes
    ensures Onward(k, Publish(k, th, q, kind), scope)
  {
    var chosen := QueueWaiter(k, q, kind);
    if chosen.Some? { ReleaseOnward(k, chosen.value, Ready, scope); }
    var released := ReleaseQueueWaiter(k, q, kind);
    assert IsThread(released, th) && Onward(k, released, scope);
    hide Onward, ReleaseQueueWaiter;
    DispatchOnward(released, scope);
    PreemptOnward(Dispatch(released), th, Some(q), scope);
    OnwardThen(k, released, Dispatch(released), scope);
    OnwardThen(k, Dispatch(released), Publish(k, th, q, kind), scope);
  }

  lemma PushOnward(k: Kernel, q: nat, item: Item, front: bool, scope: Scope)
    requires q < |k.queues| && scope.contents
    ensures Onward(k, Push(k, q, item, front), scope)
  {
  }

  lemma PopOnward(k: Kernel, q: nat, scope: Scope)
    requires q < |k.queues| && k.queues[q].items != [] && scope.contents
    ensures Onward(k, Pop(k, q), scope)
  {
  }

  lemma WaitOnOnward(k: Kernel, c: nat, op: Op, ticks: nat, scope: Scope)
    requires c < |k.tasks| && scope.actor == Some(Worker(c)) && scope.waits
    ensures Onward(k, WaitOn(k, c, op, ticks), scope)
  {
    PassThroughOnward(k, c, op, ticks, Code, scope);
    BlockInOnward(k, c, op, ticks, scope);
  }

  lemma PassThroughOnward(k: Kernel, c: nat, op: Op, ticks: nat, pc: Pc, scope: Scope)
    requires c < |k.tasks| && scope.actor == Some(Worker(c))
    ensures Onward(k, Dispatch(PassThrough(k, c, op, ticks, pc)), scope)
  {
    var passed := PassThrough(k, c, op, ticks, pc);
    OneTaskOnward(k, passed, c, scope);
    hide Onward, PassThrough;
    DispatchOnward(passed, scope);
    OnwardThen(k, passed, Dispatch(passed), scope);
  }

  lemma BlockInOnward(k: Kernel, c: nat, op: Op, ticks: nat, scope: Scope)
    requires c < |k.tasks| && scope.actor == Some(Worker(c)) && scope.waits
    ensures Onward(k, Dispatch(BlockIn(k, c, op, ticks)), scope)
  {
    var blocked := BlockOn(k, c, KindOf(op), QueueOf(op), op.DelayOp? || ticks != MAX_DELAY, ticks, Wait(op));
    OneTaskOnward(k, blocked, c, scope);
    hide Onward, BlockOn, EnterUse;
    UseOnward(blocked, QueueOf(op), scope);
    OnwardThen(k, blocked, BlockIn(k, c, op, ticks), scope);
    DispatchOnward(BlockIn(k, c, op, ticks), scope);
    OnwardThen(k, BlockIn(k, c, op, ticks), Dispatch(BlockIn(k, c, op, ticks)), scope);
  }

  lemma AwakenOnward(k: Kernel, c: nat, scope: Scope)
    requires c < |k.tasks| && k.tasks[c].pc.Wait? && scope.actor == Some(Worker(c))
    ensures Onward(k, Dispatch(Awaken(k, c)), scope)
  {
    var awake := SetTask(k, c, AwakeTask(k.tasks[c]));
    OneTaskOnward(k, awake, c, scope);
    hide Onward, LeaveUse, AwakeTask;
    UseOnward(awake, QueueOf(k.tasks[c].pc.op), scope);
    OnwardThen(k, awake, Awaken(k, c), scope);
    DispatchOnward(Awaken(k, c), scope);
    OnwardThen(k, Awaken(k, c), Dispatch(Awaken(k, c)), scope);
  }

  lemma RequeueOnward(k: Kernel, raised: Kernel, c: nat, pc: Pc, scope: Scope)
    requires c < |k.tasks| && scope.actor == Some(Worker(c)) && (raised == k || raised == GiveUpTurn(k, c))
    ensures Onward(k, Requeue(raised, c, pc), scope)
  {
    var queued := QueueUp(raised, c, pc);
    OneTaskOnward(k, queued, c, scope);
    OneTaskOnward(Dispatch(queued), Unpark(Dispatch(queued), c), c, scope);
    hide Onward, QueueUp, Unpark;
    LastOnward(k, queued, scope);
    OnwardThen(k, Dispatch(queued), Unpark(Dispatch(queued), c), scope);
    LastOnward(k, Unpark(Dispatch(queued), c), scope);
  }

  lemma LastOnward(k: Kernel, r: Kernel, scope: Scope)
    requires Onward(k, r, scope)
    ensures Onward(k, Dispatch(r), scope)
  {
    hide Onward;
    DispatchOnward(r, scope);
    OnwardThen(k, r, Dispatch(r), scope);
  }

  // ----- queue operations

  lemma SendOnward(k: Kernel, s: Step)
    requires s.DoSend? && Enabled(k, s)
    ensures Onward(k, Next(k, s), ScopeOf(s))
  {
    var DoSend(th, q, item, front, ticks) := s;
    var scope := ScopeOf(s);
    var pushed := Push(k, q, item, front);
    OnwardSelf(k, scope);
    hide Onward, Publish, Push, WaitOn;
    PushOnward(k, q, item, front, scope);
    OnwardThreads(k, pushed, scope, th);
    PublishOnward(pushed, th, q, Receiving, scope);
    if th.Worker? { WaitOnOnward(k, th.id, SendOp(q, item, front), ticks, scope); }
    OnwardThen(k, pushed, Publish(pushed, th, q, Receiving), scope);
  }

  lemma ReceiveOnward(k: Kernel, s: Step)
    requires s.DoReceive? && Enabled(k, s)
    ensures Onward(k, Next(k, s), ScopeOf(s))
  {
    var DoReceive(th, q, ticks) := s;
    var scope := ScopeOf(s);
    OnwardSelf(k, scope);
    hide Onward, Publish, Pop, WaitOn;
    if k.queues[q].items != [] {
      PopOnward(k, q, scope);
      OnwardThreads(k, Pop(k, q), scope, th);
      PublishOnward(Pop(k, q), th, q, Sending, scope);
      OnwardThen(k, Pop(k, q), Publish(Pop(k, q), th, q, Sending), scope);
    }
    if th.Worker? { WaitOnOnward(k, th.id, ReceiveOp(q), ticks, scope); }
  }

  lemma ConsumeOnward(k: Kernel, c: nat, clear: bool, scope: Scope)
    requires c < |k.tasks| && k.tasks[c].notes.count > 0 && scope.actor == Some(Worker(c))
    ensures Onward(k, Consume(k, c, clear), scope)
  {
  }

  lemma ResumeOnward(k: Kernel, s: Step)
    requires s.DoResume? && Enabled(k, s)
    ensures Onward(k, Next(k, s), ScopeOf(s))
  {
    var c := s.c;
    var scope := ScopeOf(s);
    var woken := Dispatch(Awaken(k, c));
    AwakenOnward(k, c, scope);
    hide Onward, Publish;
    match k.tasks[c].pc.op
    case SendOp(q, item, front) =>
      if q < |woken.queues| {
        PushOnward(woken, q, item, front, scope);
        PublishOnward(Push(woken, q, item, front), Worker(c), q, Receiving, scope);
        OnwardThen(k, woken, Push(woken, q, item, front), scope);
        OnwardThen(k, Push(woken, q, item, front), Publish(Push(woken, q, item, front), Worker(c), q, Receiving),
                   scope);
      }
    case ReceiveOp(q) =>
      if q < |woken.queues| && woken.queues[q].items != [] {
        PopOnward(woken, q, scope);
        PublishOnward(Pop(woken, q), Worker(c), q, Sending, scope);
        OnwardThen(k, woken, Pop(woken, q), scope);
        OnwardThen(k, Pop(woken, q), Publish(Pop(woken, q), Worker(c), q, Sending), scope);
      }
    case TakeOp(clear) =>
      if woken.tasks[c].notes.count > 0 {
        ConsumeOnward(woken, c, clear, scope);
        OnwardThen(k, woken, Consume(woken, c, clear), scope);
      }
    case DelayOp =>
  }

  lemma ResetQueueOnward(k: Kernel, s: Step)
    requires s.DoResetQueue? && Enabled(k, s)
    ensures Onward(k, Next(k, s), ScopeOf(s))
  {
    var DoResetQueue(th, q) := s;
    var scope := ScopeOf(s);
    var x := k.queues[q];
    var cleared := SetQueue(k, q, x.(items := [], discarded := x.discarded + x.items));
    ClearedOnward(k, q, scope);
    OnwardSelf(k, scope);
    hide Onward, Publish;
    PublishOnward(cleared, th, q, Sending, scope);
    OnwardThen(k, cleared, Publish(cleared, th, q, Sending), scope);
  }

  lemma ClearedOnward(k: Kernel, q: nat, scope: Scope)
    requires q < |k.queues| && scope.contents
    ensures var x := k.queues[q]; Onward(k, SetQueue(k, q, x.(items := [], discarded := x.discarded + x.items)), scope)
  {
  }

  lemma ReleaseAllOnward(k: Kernel, q: nat, scope: Scope)
    requires scope.cancels
    ensures Onward(k, Dispatch(ReleaseAllOn(k, q)), scope)
  {
    assert Onward(k, ReleaseAllOn(k, q), scope);
    hide Onward, ReleaseAllOn;
    LastOnward(k, ReleaseAllOn(k, q), scope);
  }

  lemma DrainByOnward(k: Kernel, th: Thread, q: nat, scope: Scope)
    requires IsThread(k, th) && scope.actor == Some(th)
    ensures Onward(k, DrainBy(k, th, q), scope)
  {
    hide Onward, NextRunnable;
    if th.Worker? && k.running == Some(th.id) {
      AsideOnward(k, th.id, q, scope);
    } else {
      SetPcOnward(k, th, Drain(q), scope);
    }
  }

  lemma AsideOnward(k: Kernel, c: nat, q: nat, scope: Scope)
    requires c < |k.tasks| && scope.actor == Some(Worker(c))
    ensures Onward(k, Dispatch(SetTask(k, c, k.tasks[c].(runnable := false, pc := Drain(q))).(running := None)), scope)
  {
    var aside := SetTask(k, c, k.tasks[c].(runnable := false, pc := Drain(q))).(running := None);
    OneTaskOnward(k, aside, c, scope);
    hide Onward;
    LastOnward(k, aside, scope);
  }

  lemma DeleteQueueOnward(k: Kernel, s: Step)
    requires s.DoDeleteQueue? && Enabled(k, s)
    ensures Onward(k, Next(k, s), ScopeOf(s))
  {
    var DoDeleteQueue(th, q) := s;
    var scope := ScopeOf(s);
    var marked := MarkDeleted(k, q, th);
    assert Onward(k, marked, scope);
    var gone := Dispatch(ReleaseAllOn(marked, q));
    ReleaseAllOnward(marked, q, scope);
    assert IsThread(gone, th);
    DrainByOnward(gone, th, q, scope);
    hide Onward, DrainBy, ReleaseAllOn;
    OnwardThen(k, marked, gone, scope);
    OnwardThen(k, gone, DrainBy(gone, th, q), scope);
    OnwardSelf(k, scope);
  }

  lemma SetPcOnward(k: Kernel, th: Thread, pc: Pc, scope: Scope)
    requires IsThread(k, th) && scope.actor == Some(th)
    ensures Onward(k, SetPc(k, th, pc), scope)
  {
  }

  lemma DrainOnward(k: Kernel, s: Step)
    requires (s.DoEndDrain? || s.DoFreeQueue?) && Enabled(k, s)
    ensures Onward(k, Next(k, s), ScopeOf(s))
  {
    match s
    case DoEndDrain(th) =>
      var q := PcOf(k, th).queue;
      var next := DrainTurn(q, k.queues[q].users == 0);
      if th.Worker? { RequeueOnward(k, k, th.id, next, ScopeOf(s)); }
      SetPcOnward(k, th, next, ScopeOf(s));
    case DoFreeQueue(th) => FreeQueueOnward(k, th, ScopeOf(s));
  }

  lemma FreeQueueOnward(k: Kernel, th: Thread, scope: Scope)
    requires IsThread(k, th) && PcOf(k, th).DrainTurn? && PcOf(k, th).queue < |k.queues| && scope.actor == Some(th)
    ensures Onward(k, FreeQueue(k, th), scope)
  {
    var done := SetPc(k, th, Code);
    SetPcOnward(k, th, Code, scope);
    FreedOnward(done, PcOf(k, th).queue, scope);
    hide Onward, SetPc;
    OnwardThen(k, done, SetQueue(done, PcOf(k, th).queue, done.queues[PcOf(k, th).queue].(freed := true)), scope);
  }

  lemma FreedOnward(k: Kernel, q: nat, scope: Scope)
    requires q < |k.queues|
    ensures Onward(k, SetQueue(k, q, k.queues[q].(freed := true)), scope)
  {
  }

  // ----- notifications, delays, mutexes

  lemma GiveOnward(k: Kernel, s: Step)
    requires s.DoGive? && Enabled(k, s)
    ensures Onward(k, Next(k, s), ScopeOf(s))
  {
    hide NextRunnable;
    var DoGive(th, target) := s;
    var scope := ScopeOf(s);
    var counted := SetTask(k, target, GivenTask(k.tasks[target]));
    assert Onward(k, counted, scope);
    DispatchOnward(counted, scope);
    PreemptOnward(Dispatch(counted), th, None, scope);
    OnwardThen(k, counted, Dispatch(counted), scope);
    OnwardThen(k, Dispatch(counted), Next(k, s), scope);
  }

  lemma TakeOnward(k: Kernel, s: Step)
    requires s.DoTake? && Enabled(k, s)
    ensures Onward(k, Next(k, s), ScopeOf(s))
  {
    var DoTake(c, clear, ticks) := s;
    OnwardSelf(k, ScopeOf(s));
    hide Onward, WaitOn, Consume;
    WaitOnOnward(k, c, TakeOp(clear), ticks, ScopeOf(s));
    if k.tasks[c].notes.count > 0 { ConsumeOnward(k, c, clear, ScopeOf(s)); }
  }

  lemma DelayOnward(k: Kernel, s: Step)
    requires s.DoDelay? && Enabled(k, s)
    ensures Onward(k, Next(k, s), ScopeOf(s))
  {
    var DoDelay(c, ticks) := s;
    var scope := ScopeOf(s);
    if ticks == 0 {
      RequeueOnward(k, GiveUpTurn(k, c), c, Turn(None), scope);
    } else if StoppingThread(k, Worker(c)) {
      PassThroughOnward(k, c, DelayOp, ticks, Turn(None), scope);
    } else {
      BlockInOnward(k, c, DelayOp, ticks, scope);
      var blocked := Dispatch(BlockIn(k, c, DelayOp, ticks));
      UnblockOnward(blocked, c, scope);
      OnwardThen(k, blocked, Dispatch(Unblock(blocked, c, Turn(None))), scope);
    }
  }

  lemma UnblockOnward(k: Kernel, c: nat, scope: Scope)
    requires c < |k.tasks| && scope.actor == Some(Worker(c))
    ensures Onward(k, Dispatch(Unblock(k, c, Turn(None))), scope)
  {
    OneTaskOnward(k, Unblock(k, c, Turn(None)), c, scope);
    hide Onward, Unblock;
    LastOnward(k, Unblock(k, c, Turn(None)), scope);
  }

  /** A linked waiter that is not stopping is blocked. */
  predicate WaiterReady(k: Kernel, m: nat, w: Waiter) {
    LinkOk(k, m, w) && (w.thread.Worker? ==> k.tasks[w.thread.id].stopping || k.tasks[w.thread.id].blocked)
  }

  lemma HandOffOnward(k: Kernel, m: nat, scope: Scope)
    requires m < |k.mutexes| && scope.mutexes && forall w :: w in k.mutexes[m].waiters ==> WaiterReady(k, m, w)
    ensures Onward(k, ReleaseMutex(k, m), scope)
  {
    var chosen := Select(LockEntries(k, m));
    if chosen.Some? {
      var w := k.mutexes[m].waiters[chosen.value];
      assert w in k.mutexes[m].waiters && WaiterReady(k, m, w) && LockEntries(k, m)[chosen.value] == LockEntry(k, w);
      hide Onward, Grant;
      GrantOnward(k, m, w, scope);
    }
    hide Grant;
  }

  lemma ReleaseMutexOnward(k: Kernel, m: nat, scope: Scope)
    requires MutexesOk(k) && TasksOk(k) && m < |k.mutexes| && scope.mutexes
    ensures Onward(k, ReleaseMutex(k, m), scope)
  {
    forall w | w in k.mutexes[m].waiters ensures WaiterReady(k, m, w) {
      assert MutexOk(k, m) && LinkOk(k, m, w);
      if w.thread.Worker? { assert TaskOk(k, w.thread.id); }
    }
    hide MutexesOk, TasksOk, Onward, ReleaseMutex;
    HandOffOnward(k, m, scope);
  }

  lemma GrantOnward(k: Kernel, m: nat, w: Waiter, scope: Scope)
    requires m < |k.mutexes| && scope.mutexes && LinkOk(k, m, w)
    requires w.thread.Worker? ==> k.tasks[w.thread.id].blocked
    ensures Onward(k, Grant(k, m, w), scope)
  {
    hide NextRunnable, Onward;
    var x := k.mutexes[m];
    var moved := SetMutex(k, m, x.(waiters := Unlinked(x.waiters, w.thread), owner := Granted(w.thread)));
    var reserved := SetPc(moved, w.thread, LockWait(m, w.order, true));
    SetMutexOnward(k, moved, scope);
    GrantedOnward(moved, w, m, scope);
    OnwardThen(k, moved, reserved, scope);
    if w.thread.Worker? {
      var released := Release(reserved, w.thread.id, Ready);
      OneTaskOnward(reserved, released, w.thread.id, scope);
      hide Release, SetPc;
      OnwardThen(k, reserved, released, scope);
      LastOnward(k, released, scope);
    }
  }

  lemma SetMutexOnward(k: Kernel, r: Kernel, scope: Scope)
    requires scope.mutexes && r == k.(mutexes := r.mutexes) && |r.mutexes| == |k.mutexes|
    ensures Onward(k, r, scope)
  {
  }

  lemma GrantedOnward(k: Kernel, w: Waiter, m: nat, scope: Scope)
    requires IsThread(k, w.thread) && PcOf(k, w.thread) == LockWait(m, w.order, false)
    ensures Onward(k, SetPc(k, w.thread, LockWait(m, w.order, true)), scope)
  {
  }

  lemma UnlockOnward(k: Kernel, s: Step)
    requires KernelOk(k) && s.DoUnlock? && Enabled(k, s)
    ensures Onward(k, Next(k, s), ScopeOf(s))
  {
    var DoUnlock(th, m) := s;
    ReleaseMutexOnward(k, m, ScopeOf(s));
    hide Onward, ReleaseMutex, KernelOk;
    assert IsThread(ReleaseMutex(k, m), th) by { OnwardThreads(k, ReleaseMutex(k, m), ScopeOf(s), th); }
    PreemptOnward(ReleaseMutex(k, m), th, None, ScopeOf(s));
    OnwardThen(k, ReleaseMutex(k, m), Next(k, s), ScopeOf(s));
  }

  lemma OnwardThreads(k: Kernel, r: Kernel, scope: Scope, th: Thread)
    requires Onward(k, r, scope) && IsThread(k, th)
    ensures IsThread(r, th)
  {
  }

  lemma LockOnward(k: Kernel, s: Step)
    requires (s.DoLock? || s.DoTryLock? || s.DoLockReturn?) && Enabled(k, s)
    ensures Onward(k, Next(k, s), ScopeOf(s))
  {
    hide Onward, Lock, LockReturn;
    if s.DoLock? { WaitForLockOnward(k, s.th, s.mutex, ScopeOf(s)); }
    else if s.DoTryLock? { SetMutexOnward(k, Next(k, s), ScopeOf(s)); }
    else { LockReturnOnward(k, s.th, ScopeOf(s)); }
  }

  lemma OwnHostOnward(k: Kernel, n: nat, pc: Pc, scope: Scope)
    requires n < |k.hosts| && scope.actor == Some(Host(n))
    ensures Onward(k, SetPc(k, Host(n), pc).(nextReady := k.nextReady + 1), scope)
  {
  }

  lemma WaitForLockOnward(k: Kernel, th: Thread, m: nat, scope: Scope)
    requires IsThread(k, th) && m < |k.mutexes| && scope.actor == Some(th) && scope.mutexes
    ensures Onward(k, Lock(k, th, m), scope)
  {
    hide NextRunnable, Onward;
    var x := k.mutexes[m];
    var order := k.nextReady;
    var linked := SetMutex(k, m, x.(waiters := [Waiter(th, order)] + x.waiters));
    SetMutexOnward(k, linked, scope);
    if !x.locked {
      SetMutexOnward(k, Lock(k, th, m), scope);
    } else if th.Worker? {
      var blocked := BlockOn(linked, th.id, Locking, None, false, 0, LockWait(m, order, false));
      OneTaskOnward(linked, blocked, th.id, scope);
      hide BlockOn;
      DispatchOnward(blocked, scope);
      OnwardThen(linked, blocked, Dispatch(blocked), scope);
      OnwardThen(k, linked, Dispatch(blocked), scope);
    } else {
      OwnHostOnward(linked, th.id, LockWait(m, order, false), scope);
      OnwardThen(k, linked, Lock(k, th, m), scope);
    }
  }

  lemma LockReturnOnward(k: Kernel, th: Thread, scope: Scope)
    requires Enabled(k, DoLockReturn(th)) && scope.actor == Some(th) && scope.mutexes
    ensures Onward(k, LockReturn(k, th), scope)
  {
    var m := PcOf(k, th).mutex;
    var moved := SetPc(k, th, Code);
    SetPcOnward(k, th, Code, scope);
    assert Onward(moved, LockReturn(k, th), scope);
    hide Onward, LockReturn;
    OnwardThen(k, moved, LockReturn(k, th), scope);
  }

  lemma LockCancelOnward(k: Kernel, s: Step)
    requires KernelOk(k) && s.DoLockCancel? && Enabled(k, s)
    ensures Onward(k, Next(k, s), ScopeOf(s))
  {
    var th := s.th;
    var m := PcOf(k, th).mutex;
    var left := SetPc(k, th, Code);
    SetPcOnward(k, th, Code, ScopeOf(s));
    if PcOf(k, th).granted {
      CancelledRelease(k, th, m, ScopeOf(s));
      OnwardThen(k, left, ReleaseMutex(left, m), ScopeOf(s));
    }
  }

  lemma CancelledRelease(k: Kernel, th: Thread, m: nat, scope: Scope)
    requires KernelOk(k) && IsThread(k, th) && PcOf(k, th).LockWait? && PcOf(k, th).mutex == m < |k.mutexes|
             && scope.mutexes
    requires PcOf(k, th).granted
    ensures Onward(SetPc(k, th, Code), ReleaseMutex(SetPc(k, th, Code), m), scope)
  {
    hide Onward;
    LeftLinks(k, th, m);
    HandOffOnward(SetPc(k, th, Code), m, scope);
  }

  lemma LeftLinks(k: Kernel, th: Thread, m: nat)
    requires KernelOk(k) && IsThread(k, th) && PcOf(k, th).LockWait? && PcOf(k, th).granted && m < |k.mutexes|
    ensures forall w :: w in k.mutexes[m].waiters ==> WaiterReady(SetPc(k, th, Code), m, w)
  {
    forall w | w in k.mutexes[m].waiters ensures WaiterReady(SetPc(k, th, Code), m, w) {
      assert MutexOk(k, m) && LinkOk(k, m, w);
      if w.thread.Worker? { assert TaskOk(k, w.thread.id); }
    }
  }

  lemma CreateOnward(k: Kernel, s: Step)
    requires s.DoCreate? && Enabled(k, s)
    ensures Onward(k, Next(k, s), ScopeOf(s))
  {
    hide Onward, Create;
    CreatedOnward(k, s.th, s.priority, s.bytes, ScopeOf(s));
  }

  lemma CreatedOnward(k: Kernel, th: Thread, priority: nat, bytes: nat, scope: Scope)
    requires IsThread(k, th) && scope.actor == Some(th) && !scope.waits
    ensures Onward(k, Create(k, th, priority, bytes), scope)
  {
    hide Onward, Preempt;
    OnwardSelf(k, scope);
    AddedOnward(k, priority, bytes, scope);
    if !k.stopping {
      ThenPreemptOnward(k, WithNewTask(k, priority, bytes), th, scope);
    }
  }

  lemma ThenPreemptOnward(k: Kernel, r: Kernel, th: Thread, scope: Scope)
    requires Onward(k, r, scope) && IsThread(k, th) && scope.actor == Some(th)
    ensures IsThread(r, th) && Onward(k, Preempt(r, th, None), scope)
  {
    hide Onward, Preempt;
    OnwardThreads(k, r, scope, th);
    PreemptOnward(r, th, None, scope);
    OnwardThen(k, r, Preempt(r, th, None), scope);
  }

  lemma AddedOnward(k: Kernel, priority: nat, bytes: nat, scope: Scope)
    requires !scope.waits
    ensures Onward(k, WithNewTask(k, priority, bytes), scope)
  {
  }

  lemma FinishOnward(k: Kernel, s: Step)
    requires KernelOk(k) && s.DoFinish? && Enabled(k, s)
    ensures Onward(k, Next(k, s), ScopeOf(s))
  {
    var c := s.c;
    assert TaskOk(k, c);
    hide KernelOk;
    var gone := GiveUpTurn(SetTask(k, c, FinishedTask(k.tasks[c])), c);
    OneTaskOnward(k, gone, c, ScopeOf(s));
    hide Onward;
    DispatchOnward(gone, ScopeOf(s));
    OnwardThen(k, gone, Dispatch(gone), ScopeOf(s));
  }

  lemma StopOnward(k: Kernel, s: Step)
    requires KernelOk(k) && (s.DoDelete? || s.DoStopAll? || s.DoStop?) && Enabled(k, s)
    ensures Onward(k, Next(k, s), ScopeOf(s))
  {
    hide KernelOk, Onward, Delete, StopAll;
    match s
    case DoDelete(th, target) => DeleteOnward(k, th, target, ScopeOf(s));
    case DoStopAll => StopAllOnward(k, ScopeOf(s));
    case DoStop => FlaggedOnward(k, ScopeOf(s));
  }

  lemma FlaggedOnward(k: Kernel, scope: Scope)
    requires scope.stops
    ensures Onward(k, k.(stopping := true), scope)
  {
  }

  lemma StoppedTaskOnward(t: Task, scope: Scope)
    requires WaitOk(t) && scope.cancels
    ensures TaskOnward(t, StoppedTask(t)) && WaitStep(t, StoppedTask(t), scope) && PlaceKept(t, StoppedTask(t))
            && NoNewWait(t, StoppedTask(t))
  {
  }

  lemma DeleteOnward(k: Kernel, th: Thread, target: nat, scope: Scope)
    requires KernelOk(k) && IsThread(k, th) && target < |k.tasks| && scope.actor == Some(th)
    requires scope.stops && scope.cancels
    ensures Onward(k, Delete(k, th, target), scope)
  {
    assert TaskOk(k, target);
    StoppedTaskOnward(k.tasks[target], scope);
    hide KernelOk, StoppedTask;
    var stopped := RequestStop(k, target);
    OneTaskOnward(k, stopped, target, scope);
    hide Onward, RequestStop;
    OnwardThreads(k, stopped, scope, th);
    SetPcOnward(stopped, th, Join(target), scope);
    OnwardThen(k, stopped, SetPc(stopped, th, Join(target)), scope);
  }

  lemma StopAllOnward(k: Kernel, scope: Scope)
    requires KernelOk(k) && scope.stops && scope.cancels
    ensures Onward(k, StopAll(k), scope)
  {
    forall i | 0 <= i < |k.tasks|
      ensures TaskOnward(k.tasks[i], StopAll(k).tasks[i]) && BystandsAt(i, k.tasks[i], StopAll(k).tasks[i], scope)
      ensures NoNewWait(k.tasks[i], StopAll(k).tasks[i])
    {
      assert TaskOk(k, i);
      StoppedTaskOnward(k.tasks[i], scope);
    }
  }

  lemma JoinOnward(k: Kernel, s: Step)
    requires KernelOk(k) && (s.DoJoin? || s.DoPollJoin? || s.DoCompleteJoin?) && Enabled(k, s)
    ensures Onward(k, Next(k, s), ScopeOf(s))
  {
    match s
    case DoJoin(th, target) => SetPcOnward(k, th, Join(target), ScopeOf(s));
    case DoPollJoin(th) => PollJoinOnward(k, th, ScopeOf(s));
    case DoCompleteJoin(th) => CompleteJoinOnward(k, th, ScopeOf(s));
  }

  lemma PollJoinOnward(k: Kernel, th: Thread, scope: Scope)
    requires KernelOk(k) && Enabled(k, DoPollJoin(th)) && scope.actor == Some(th)
    ensures Onward(k, PollJoin(k, th), scope)
  {
    var target := PcOf(k, th).target;
    assert TaskOk(k, target);
    hide KernelOk;
    var t := k.tasks[target];
    if t.life.cycle == Finished {
      var claimed := SetTask(k, target, t.(life := t.life.(cycle := Joining, claimant := Some(th))));
      OneTaskOnward(k, claimed, target, scope);
      hide Onward;
      SetPcOnward(claimed, th, Claimed(target), scope);
      OnwardThen(k, claimed, PollJoin(k, th), scope);
    } else {
      OnwardSelf(k, scope);
      SetPcOnward(k, th, Code, scope);
    }
  }

  lemma CompleteJoinOnward(k: Kernel, th: Thread, scope: Scope)
    requires Enabled(k, DoCompleteJoin(th)) && scope.actor == Some(th)
    ensures Onward(k, CompleteJoin(k, th), scope)
  {
    hide Onward;
    JoinedOnward(k, PcOf(k, th).target, scope);
    var t := k.tasks[PcOf(k, th).target];
    var joined := SetTask(k, PcOf(k, th).target, t.(life := t.life.(cycle := Joined, joins := t.life.joins + 1)));
    SetPcOnward(joined, th, Code, scope);
    OnwardThen(k, joined, CompleteJoin(k, th), scope);
  }

  lemma JoinedOnward(k: Kernel, target: nat, scope: Scope)
    requires target < |k.tasks|
    ensures var t := k.tasks[target];
            Onward(k, SetTask(k, target, t.(life := t.life.(cycle := Joined, joins := t.life.joins + 1))), scope)
  {
  }

  lemma TimerDueOnward(k: Kernel, due: bool, scope: Scope)
    requires |k.tasks| > 0 && scope.timer
    ensures Onward(k, TimerDue(k, due), scope)
  {
    hide Onward, Dispatch;
    DispatchOnward(k, scope);
    TimerOnOnward(k, scope);
    TimerOffOnward(k, scope);
  }

  lemma TimerOnOnward(k: Kernel, scope: Scope)
    requires |k.tasks| > 0 && scope.timer
    ensures Onward(k, Dispatch(TimerOn(k)), scope)
  {
    var on := TimerOn(k);
    OneTaskOnward(k, on, 0, scope);
    hide Onward, Dispatch;
    LastOnward(k, on, scope);
  }

  lemma TimerOffOnward(k: Kernel, scope: Scope)
    requires |k.tasks| > 0 && scope.timer
    ensures Onward(k, Dispatch(GiveUpTurn(SetTask(k, 0, k.tasks[0].(runnable := false)), 0)), scope)
  {
    var off := GiveUpTurn(SetTask(k, 0, k.tasks[0].(runnable := false)), 0);
    OneTaskOnward(k, off, 0, scope);
    hide Onward, Dispatch;
    LastOnward(k, off, scope);
  }

  lemma AdvanceOnward(k: Kernel, elapsed: nat, due: bool, scope: Scope)
    requires KernelOk(k) && scope.late && scope.timer
    ensures |k.tasks| > 0 && Onward(k, Advance(k, elapsed, due), scope)
  {
    hide KernelOk, Onward, ReleaseDue, TimerDue;
    DueOnward(k, k.micros + elapsed, scope);
    LaterOnward(k, ReleaseDue(k.(micros := k.micros + elapsed)), due, scope);
  }

  lemma LaterOnward(k: Kernel, later: Kernel, due: bool, scope: Scope)
    requires Onward(k, later, scope) && |later.tasks| > 0 && scope.timer
    ensures Onward(k, TimerDue(later, due), scope)
  {
    hide Onward, TimerDue;
    TimerDueOnward(later, due, scope);
    OnwardThen(k, later, TimerDue(later, due), scope);
  }

  lemma DueOnward(k: Kernel, micros: nat, scope: Scope)
    requires KernelOk(k) && scope.late
    ensures |k.tasks| > 0 && Onward(k, ReleaseDue(k.(micros := micros)), scope)
            && |ReleaseDue(k.(micros := micros)).tasks| > 0
  {
    var later := ReleaseDue(k.(micros := micros));
    forall i | 0 <= i < |k.tasks|
      ensures TaskOnward(k.tasks[i], later.tasks[i]) && BystandsAt(i, k.tasks[i], later.tasks[i], scope)
      ensures NoNewWait(k.tasks[i], later.tasks[i])
    {
      assert TaskOk(k, i);
    }
  }

  lemma TimerOnward(k: Kernel, scope: Scope)
    requires KernelOk(k) && scope.actor == Some(Worker(0))
    ensures |k.tasks| > 0 && Onward(k, EnterTimer(k), scope) && Onward(k, StartTimer(k), scope)
            && Onward(k, ResetKernel(k), scope)
  {
    assert TaskOk(k, 0);
    hide KernelOk, TaskOk, Onward;
    LastDispatchOnward(k, EnteredTimer(k), scope);
    OneTaskOnward(k, StartTimer(k), 0, scope);
    assert !k.tasks[0].stopping by { TimerNeverStops(k); }
    OneTaskOnward(k, ResetKernel(k), 0, scope);
  }

  lemma TimerNeverStops(k: Kernel)
    requires |k.tasks| > 0 && TaskOk(k, 0)
    ensures !k.tasks[0].stopping
  {
  }

  lemma ExitTimerOnward(k: Kernel, due: bool, scope: Scope)
    requires |k.tasks| > 0 && scope.actor == Some(Worker(0))
    ensures Onward(k, ExitTimer(k, due), scope)
  {
    var out := GiveUpTurn(SetTask(k, 0, k.tasks[0].(
      runnable := due, blocked := false, pc := Idle,
      wait := k.tasks[0].wait.(kind := NoWait, result := NoResult))).(timerExecuting := false), 0);
    LastDispatchOnward(k, out, scope);
  }

  lemma LastDispatchOnward(k: Kernel, r: Kernel, scope: Scope)
    requires |k.tasks| > 0 && |k.tasks| == |r.tasks| && r.tasks == k.tasks[0 := r.tasks[0]]
    requires r.hosts == k.hosts && r.queues == k.queues && r.mutexes == k.mutexes && r.micros == k.micros
    requires TaskOnward(k.tasks[0], r.tasks[0]) && NoNewWait(k.tasks[0], r.tasks[0]) && scope.actor == Some(Worker(0))
    requires r.tasks[0].stopping == k.tasks[0].stopping && r.stopping == k.stopping
    ensures Onward(k, Dispatch(r), scope)
  {
    OneTaskOnward(k, r, 0, scope);
    hide Onward;
    DispatchOnward(r, scope);
    OnwardThen(k, r, Dispatch(r), scope);
  }

  lemma RestOnward(k: Kernel, s: Step)
    requires (s.DoTakeTurn? || s.DoNewQueue? || s.DoDispatch? || s.DoReachTurn? || s.DoPark?) && Enabled(k, s)
    ensures Onward(k, Next(k, s), ScopeOf(s))
  {
    hide Onward, Dispatch, Park, TakeTurn, ReachTurn;
    if s.DoTakeTurn? { TakeTurnOnward(k, s.c, ScopeOf(s)); }
    else if s.DoNewQueue? { NewQueueOnward(k, Next(k, s), ScopeOf(s)); }
    else if s.DoDispatch? { DispatchOnward(k, ScopeOf(s)); }
    else if s.DoReachTurn? { ReachTurnOnward(k, s.c, ScopeOf(s)); }
    else { ParkOnward(k, ScopeOf(s)); }
  }

  lemma NewQueueOnward(k: Kernel, r: Kernel, scope: Scope)
    requires r == k.(queues := r.queues) && |r.queues| == |k.queues| + 1 && r.queues[..|k.queues|] == k.queues
    requires r.queues[|k.queues|].items == [] && !scope.contents
    ensures Onward(k, r, scope)
  {
    assert forall q :: 0 <= q < |k.queues| ==> r.queues[..|k.queues|][q] == r.queues[q];
  }

  lemma ReachTurnOnward(k: Kernel, c: nat, scope: Scope)
    requires c < |k.tasks|
    ensures Onward(k, ReachTurn(k, c), scope)
  {
    OneTaskOnward(k, Unpark(k, c), c, scope);
    hide Onward, Unpark;
    LastOnward(k, Unpark(k, c), scope);
  }

  lemma TakeTurnOnward(k: Kernel, c: nat, scope: Scope)
    requires c < |k.tasks| && k.tasks[c].pc.Turn? && scope.actor == Some(Worker(c))
    ensures Onward(k, TakeTurn(k, c), scope)
  {
    var mine := SetTask(k, c, k.tasks[c].(pc := Code));
    OneTaskOnward(k, mine, c, scope);
    hide Onward, LeaveUse;
    UseOnward(mine, k.tasks[c].pc.use, scope);
    OnwardThen(k, mine, TakeTurn(k, c), scope);
  }

  lemma ParkOnward(k: Kernel, scope: Scope)
    ensures Onward(k, Park(k), scope)
  {
    OnwardSelf(k, scope);
    if k.running.Some? && k.running.value < |k.tasks| {
      var parked := SetTask(k, k.running.value, k.tasks[k.running.value].(parked := true)).(running := None);
      OneTaskOnward(k, parked, k.running.value, scope);
      hide Onward;
      LastOnward(k, parked, scope);
    }
  }

  // ----- every step

  lemma StepOnward(k: Kernel, s: Step)
    requires KernelOk(k) && Enabled(k, s)
    ensures Onward(k, Next(k, s), ScopeOf(s))
  {
    hide KernelOk, Onward, Enabled, Next, ScopeOf;
    match s
    case DoSend(_, _, _, _, _) => SendOnward(k, s);
    case DoReceive(_, _, _) => ReceiveOnward(k, s);
    case DoGive(_, _) => GiveOnward(k, s);
    case DoTake(_, _, _) => TakeOnward(k, s);
    case DoDelay(_, _) => DelayOnward(k, s);
    case DoResume(_) => ResumeOnward(k, s);
    case DoLock(_, _) => LockOnward(k, s);
    case DoTryLock(_, _) => LockOnward(k, s);
    case DoLockReturn(_) => LockOnward(k, s);
    case DoUnlock(_, _) => UnlockOnward(k, s);
    case DoLockCancel(_) => LockCancelOnward(k, s);
    case DoCreate(_, _, _) => CreateOnward(k, s);
    case DoFinish(_) => FinishOnward(k, s);
    case DoDelete(_, _) => StopOnward(k, s);
    case DoStopAll => StopOnward(k, s);
    case DoStop => StopOnward(k, s);
    case DoJoin(_, _) => JoinOnward(k, s);
    case DoPollJoin(_) => JoinOnward(k, s);
    case DoCompleteJoin(_) => JoinOnward(k, s);
    case DoResetQueue(_, _) => ResetQueueOnward(k, s);
    case DoDeleteQueue(_, _) => DeleteQueueOnward(k, s);
    case DoEndDrain(_) => DrainOnward(k, s);
    case DoFreeQueue(_) => DrainOnward(k, s);
    case DoAdvance(_, _) => ClockOnward(k, s);
    case DoTimerDue(_) => ClockOnward(k, s);
    case DoEnterTimer => ClockOnward(k, s);
    case DoStartTimer => ClockOnward(k, s);
    case DoExitTimer(_) => ClockOnward(k, s);
    case DoResetKernel => ClockOnward(k, s);
    case _ => RestOnward(k, s);
  }

  lemma ClockOnward(k: Kernel, s: Step)
    requires KernelOk(k) && Enabled(k, s)
    requires s.DoAdvance? || s.DoTimerDue? || s.DoEnterTimer? || s.DoStartTimer? || s.DoExitTimer? || s.DoResetKernel?
    ensures Onward(k, Next(k, s), ScopeOf(s))
  {
    hide KernelOk, Onward, Advance, TimerDue, EnterTimer, StartTimer, ExitTimer, ResetKernel;
    match s
    case DoAdvance(elapsed, due) => AdvanceOnward(k, elapsed, due, ScopeOf(s));
    case DoTimerDue(due) => TimerDueOnward(k, due, ScopeOf(s));
    case DoEnterTimer => TimerOnward(k, ScopeOf(s));
    case DoStartTimer => TimerOnward(k, ScopeOf(s));
    case DoExitTimer(due) => ExitTimerOnward(k, due, ScopeOf(s));
    case DoResetKernel => TimerOnward(k, ScopeOf(s));
  }
}
