/** The kernel's locked regions as functions on the state: first the helpers every region is made of,
    then one function per region. Scheduling choices the simulator leaves to the host are the arguments. */
module KernelSteps {
  import opened Selection
  import opened KernelState

  // ----- dispatch

  function ReadyEntry(stopping: bool, t: Task): Entry {
    if ReadyTask(stopping, t) then In(t.priority, t.readyOrder) else Out
  }

  /** The dispatcher scans the registry first and the timer service record last. */
  function ScanIndex(k: Kernel, i: nat): nat
    requires i < |k.tasks|
  {
    if i + 1 < |k.tasks| then i + 1 else 0
  }

  function ScanEntries(k: Kernel): seq<Entry> {
    seq(|k.tasks|, i requires 0 <= i < |k.tasks| => ReadyEntry(k.stopping, k.tasks[ScanIndex(k, i)]))
  }

  /** nextRunnableTaskLocked. */
  function NextRunnable(k: Kernel): (r: Option<nat>)
    ensures r.Some? ==> r.value < |k.tasks| && ReadyTask(k.stopping, k.tasks[r.value])
  {
    var r := Select(ScanEntries(k));
    assert r.Some? ==> ScanEntries(k)[r.value] == ReadyEntry(k.stopping, k.tasks[ScanIndex(k, r.value)]);
    if r.Some? then Some(ScanIndex(k, r.value)) else None
  }

  /** dispatchNextLocked. */
  function Dispatch(k: Kernel): Kernel {
    if k.running.Some? then k else k.(running := NextRunnable(k))
  }

  function GiveUpTurn(k: Kernel, c: nat): Kernel {
    if k.running == Some(c) then k.(running := None) else k
  }

  function SetTask(k: Kernel, i: nat, t: Task): Kernel
    requires i < |k.tasks|
  {
    k.(tasks := k.tasks[i := t])
  }

  function SetPc(k: Kernel, th: Thread, pc: Pc): Kernel
    requires IsThread(k, th)
  {
    match th
    case Worker(i) => SetTask(k, i, k.tasks[i].(pc := pc))
    case Host(n) => k.(hosts := k.hosts[n := pc])
  }

  function SetQueue(k: Kernel, q: nat, queue: Queue): Kernel
    requires q < |k.queues|
  {
    k.(queues := k.queues[q := queue])
  }

  function EnterUse(k: Kernel, use: Option<nat>): Kernel {
    if use.Some? && use.value < |k.queues| then
      SetQueue(k, use.value, k.queues[use.value].(users := k.queues[use.value].users + 1))
    else k
  }

  function LeaveUse(k: Kernel, use: Option<nat>): Kernel {
    if use.Some? && use.value < |k.queues| && k.queues[use.value].users > 0 then
      SetQueue(k, use.value, k.queues[use.value].(users := k.queues[use.value].users - 1))
    else k
  }

  /** The caller gives its turn away and queues behind the tasks of its own priority. */
  function SwitchOut(k: Kernel, c: nat, use: Option<nat>): Kernel
    requires c < |k.tasks|
  {
    EnterUse(SetTask(k, c, k.tasks[c].(readyOrder := k.nextReady, parked := false, pc := Turn(use)))
             .(running := None, nextReady := k.nextReady + 1), use)
  }

  predicate MustPreempt(k: Kernel, th: Thread)
    requires IsThread(k, th)
  {
    && th.Worker? && k.running == Some(th.id)
    && var next := NextRunnable(k);
       next.Some? && next.value != th.id && k.tasks[next.value].priority > k.tasks[th.id].priority
  }

  /** preemptForHigherPriorityLocked, up to the wait for the next turn. */
  function Preempt(k: Kernel, th: Thread, use: Option<nat>): Kernel
    requires IsThread(k, th)
  {
    if MustPreempt(k, th) then Dispatch(SwitchOut(k, th.id, use)) else k
  }

  // ----- blocking and releasing

  /** setTaskWaitLocked and the first half of setTaskBlockedLocked(true). */
  function BlockOn(k: Kernel, c: nat, kind: WaitKind, queue: Option<nat>, timed: bool, ticks: nat, pc: Pc): Kernel
    requires c < |k.tasks|
  {
    GiveUpTurn(
      SetTask(k, c, k.tasks[c].(
        parked := false, blocked := true, runnable := false, waitOrder := k.nextReady, pc := pc,
        wait := WaitState(kind, NoResult, queue, timed,
                          if timed then (Clock(k.micros) + ticks) % TICKS_WRAP else 0, Millis(k.micros) + ticks)))
      .(nextReady := k.nextReady + 1), c)
  }

  function Awake(w: WaitState, result: WaitResult): WaitState {
    w.(kind := NoWait, result := result, queue := None, timed := false)
  }

  /** What releaseTaskLocked does to the task; without a result, what setTaskBlockedLocked(false) does. */
  function ReleasedTask(t: Task, result: WaitResult): Task {
    t.(blocked := false, runnable := true, readyOrder := t.waitOrder, wait := Awake(t.wait, result))
  }

  function Release(k: Kernel, i: nat, result: WaitResult): Kernel
    requires i < |k.tasks|
  {
    SetTask(k, i, ReleasedTask(k.tasks[i], result))
  }

  predicate WaitsOn(t: Task, q: nat, kind: WaitKind) {
    t.blocked && t.wait.queue == Some(q) && t.wait.kind == kind
  }

  function WaitEntry(t: Task, q: nat, kind: WaitKind): Entry {
    if WaitsOn(t, q, kind) then In(t.priority, t.waitOrder) else Out
  }

  /** Only the registry is searched: the timer service record never waits on a queue. */
  function WaitEntries(k: Kernel, q: nat, kind: WaitKind): seq<Entry> {
    seq(|k.tasks|, i requires 0 <= i < |k.tasks| => if i == 0 then Out else WaitEntry(k.tasks[i], q, kind))
  }

  function QueueWaiter(k: Kernel, q: nat, kind: WaitKind): (r: Option<nat>)
    ensures r.Some? ==> 0 < r.value < |k.tasks| && WaitsOn(k.tasks[r.value], q, kind)
  {
    var r := Select(WaitEntries(k, q, kind));
    assert r.Some? ==> WaitEntries(k, q, kind)[r.value] ==
                       if r.value == 0 then Out else WaitEntry(k.tasks[r.value], q, kind);
    r
  }

  /** releaseQueueWaiterLocked. */
  function ReleaseQueueWaiter(k: Kernel, q: nat, kind: WaitKind): Kernel {
    var chosen := QueueWaiter(k, q, kind);
    if chosen.Some? then Release(k, chosen.value, Ready) else k
  }

  /** What follows a change of a queue's contents: wake one waiter, dispatch, preempt. */
  function Publish(k: Kernel, th: Thread, q: nat, kind: WaitKind): Kernel
    requires IsThread(k, th)
  {
    Preempt(Dispatch(ReleaseQueueWaiter(k, q, kind)), th, Some(q))
  }

  /** The second half of setTaskBlockedLocked: the caller leaves a wait nobody released it from. */
  function Unblock(k: Kernel, c: nat, pc: Pc): Kernel
    requires c < |k.tasks|
  {
    SetTask(k, c, ReleasedTask(k.tasks[c], NoResult).(pc := pc))
  }

  function BlockIn(k: Kernel, c: nat, op: Op, ticks: nat): Kernel
    requires c < |k.tasks|
  {
    EnterUse(BlockOn(k, c, KindOf(op), QueueOf(op), op.DelayOp? || ticks != MAX_DELAY, ticks, Wait(op)), QueueOf(op))
  }

  /** A stopping caller blocks and comes straight back out, to unwind. */
  function PassThrough(k: Kernel, c: nat, op: Op, ticks: nat, pc: Pc): Kernel
    requires c < |k.tasks|
  {
    Unblock(BlockOn(k, c, KindOf(op), QueueOf(op), op.DelayOp? || ticks != MAX_DELAY, ticks, Wait(op)), c, pc)
  }

  /** waitUntilLocked when the condition does not hold yet. */
  function WaitOn(k: Kernel, c: nat, op: Op, ticks: nat): Kernel
    requires c < |k.tasks|
  {
    if StoppingThread(k, Worker(c)) then Dispatch(PassThrough(k, c, op, ticks, Code))
    else Dispatch(BlockIn(k, c, op, ticks))
  }

  function AwakeTask(t: Task): Task {
    (if t.blocked then ReleasedTask(t, NoResult)
      else t.(wait := t.wait.(result := NoResult))).(parked := false, pc := Code)
  }

  /** The end of a condition wait: the caller has the turn again, or is stopping. */
  function Awaken(k: Kernel, c: nat): Kernel
    requires c < |k.tasks| && k.tasks[c].pc.Wait?
  {
    LeaveUse(SetTask(k, c, AwakeTask(k.tasks[c])), QueueOf(k.tasks[c].pc.op))
  }

  // ----- queues

  function Push(k: Kernel, q: nat, item: Item, front: bool): Kernel
    requires q < |k.queues|
  {
    var x := k.queues[q];
    SetQueue(k, q, x.(items := if front then [item] + x.items else x.items + [item],
                      accepted := x.accepted + [item], fronted := x.fronted || front))
  }

  function Pop(k: Kernel, q: nat): Kernel
    requires q < |k.queues| && k.queues[q].items != []
  {
    var x := k.queues[q];
    SetQueue(k, q, x.(items := x.items[1..], received := x.received + [x.items[0]]))
  }

  function Send(k: Kernel, th: Thread, q: nat, item: Item, front: bool, ticks: nat): Kernel
    requires IsThread(k, th) && q < |k.queues|
  {
    var ready := k.queues[q].deleted || |k.queues[q].items| < k.queues[q].capacity;
    if !ready && ticks != 0 && th.Worker? then WaitOn(k, th.id, SendOp(q, item, front), ticks)
    else if StoppingThread(k, th) || k.queues[q].deleted || !ready then k
    else Publish(Push(k, q, item, front), th, q, Receiving)
  }

  function Receive(k: Kernel, th: Thread, q: nat, ticks: nat): Kernel
    requires IsThread(k, th) && q < |k.queues|
  {
    var ready := k.queues[q].deleted || k.queues[q].items != [];
    if !ready && ticks != 0 && th.Worker? then WaitOn(k, th.id, ReceiveOp(q), ticks)
    else if StoppingThread(k, th) || k.queues[q].deleted || !ready then k
    else Publish(Pop(k, q), th, q, Sending)
  }

  function Consume(k: Kernel, c: nat, clear: bool): Kernel
    requires c < |k.tasks| && k.tasks[c].notes.count > 0
  {
    var n := k.tasks[c].notes;
    SetTask(k, c, k.tasks[c].(notes := if clear then n.(count := 0, cleared := n.cleared + n.count)
                                       else n.(count := n.count - 1, singles := n.singles + 1)))
  }

  function Take(k: Kernel, c: nat, clear: bool, ticks: nat): Kernel
    requires c < |k.tasks|
  {
    if k.tasks[c].notes.count == 0 && ticks != 0 then WaitOn(k, c, TakeOp(clear), ticks)
    else if StoppingThread(k, Worker(c)) || k.tasks[c].notes.count == 0 then k
    else Consume(k, c, clear)
  }

  /** Everything a blocked call does once it is resumed, up to its next wait. A released sender pushes
      without looking at the capacity again. */
  function Resume(k: Kernel, c: nat): Kernel
    requires c < |k.tasks| && k.tasks[c].pc.Wait?
  {
    var op := k.tasks[c].pc.op;
    var available := k.tasks[c].wait.result == Ready;
    var woken := Dispatch(Awaken(k, c));
    if StoppingThread(k, Worker(c)) then woken
    else match op
      case SendOp(q, item, front) =>
        if q >= |woken.queues| || woken.queues[q].deleted || !available then woken
        else Publish(Push(woken, q, item, front), Worker(c), q, Receiving)
      case ReceiveOp(q) =>
        if q >= |woken.queues| || woken.queues[q].deleted || !available || woken.queues[q].items == [] then woken
        else Publish(Pop(woken, q), Worker(c), q, Sending)
      case TakeOp(clear) =>
        if woken.tasks[c].notes.count == 0 then woken else Consume(woken, c, clear)
      case DelayOp => woken
  }

  /** xQueueReset: the queue is emptied but one blocked sender at most is released. */
  function ResetQueue(k: Kernel, th: Thread, q: nat): Kernel
    requires IsThread(k, th) && q < |k.queues|
  {
    var x := k.queues[q];
    if x.deleted || (th.Worker? && StoppingThread(k, th)) then k
    else Publish(SetQueue(k, q, x.(items := [], discarded := x.discarded + x.items)), th, q, Sending)
  }

  function ReleaseAllOn(k: Kernel, q: nat): Kernel {
    k.(tasks := seq(|k.tasks|, i requires 0 <= i < |k.tasks| =>
      if i > 0 && k.tasks[i].blocked && k.tasks[i].wait.queue == Some(q) then ReleasedTask(k.tasks[i], Cancelled)
      else k.tasks[i]))
  }

  function MarkDeleted(k: Kernel, q: nat, th: Thread): Kernel
    requires q < |k.queues|
  {
    var x := k.queues[q];
    SetQueue(k, q, x.(deleted := true, items := [], discarded := x.discarded + x.items, deleter := Some(th),
                      freed := x.users == 0))
  }

  /** vQueueDelete up to its wait for the queue's users; without users the memory is released at once. */
  function DeleteQueue(k: Kernel, th: Thread, q: nat): Kernel
    requires IsThread(k, th) && q < |k.queues|
  {
    if k.queues[q].deleted then k
    else
      var gone := Dispatch(ReleaseAllOn(MarkDeleted(k, q, th), q));
      if k.queues[q].users == 0 then gone else DrainBy(gone, th, q)
  }

  /** The deleting thread waits for the users, giving its turn away while it does. */
  function DrainBy(k: Kernel, th: Thread, q: nat): Kernel
    requires IsThread(k, th)
  {
    match th
    case Host(_) => SetPc(k, th, Drain(q))
    case Worker(c) =>
      if k.running == Some(c) then
        Dispatch(SetTask(k, c, k.tasks[c].(runnable := false, pc := Drain(q))).(running := None))
      else SetPc(k, th, Drain(q))
  }

  function QueueUp(k: Kernel, c: nat, pc: Pc): Kernel
    requires c < |k.tasks|
  {
    SetTask(k, c, k.tasks[c].(runnable := true, readyOrder := k.nextReady, pc := pc)).(nextReady := k.nextReady + 1)
  }

  function Unpark(k: Kernel, c: nat): Kernel
    requires c < |k.tasks|
  {
    SetTask(k, c, k.tasks[c].(parked := false))
  }

  /** Queue up for the turn with a fresh stamp. */
  function Requeue(k: Kernel, c: nat, pc: Pc): Kernel
    requires c < |k.tasks|
  {
    Dispatch(Unpark(Dispatch(QueueUp(k, c, pc)), c))
  }

  function EndDrain(k: Kernel, th: Thread): Kernel
    requires IsThread(k, th) && PcOf(k, th).Drain? && PcOf(k, th).queue < |k.queues|
  {
    var q := PcOf(k, th).queue;
    var next := DrainTurn(q, k.queues[q].users == 0);
    if th.Worker? && !k.stopping then Requeue(k, th.id, next) else SetPc(k, th, next)
  }

  function FreeQueue(k: Kernel, th: Thread): Kernel
    requires IsThread(k, th) && PcOf(k, th).DrainTurn? && PcOf(k, th).queue < |k.queues|
  {
    var pc := PcOf(k, th);
    var done := SetPc(k, th, Code);
    if pc.drained then SetQueue(done, pc.queue, done.queues[pc.queue].(freed := true)) else done
  }

  // ----- notifications, delays

  function OneMore(n: Notes): Notes {
    n.(count := (n.count + 1) % TICKS_WRAP, gives := n.gives + 1, wraps := n.wraps + (n.count + 1) / TICKS_WRAP)
  }

  function GivenTask(t: Task): Task {
    (if t.blocked && t.wait.kind == Notified then ReleasedTask(t, Ready) else t).(notes := OneMore(t.notes))
  }

  /** xTaskNotifyGive. */
  function Give(k: Kernel, th: Thread, target: nat): Kernel
    requires IsThread(k, th) && target < |k.tasks|
  {
    Preempt(Dispatch(SetTask(k, target, GivenTask(k.tasks[target]))), th, None)
  }

  function Yield(k: Kernel, c: nat): Kernel
    requires c < |k.tasks|
  {
    Requeue(GiveUpTurn(k, c), c, Turn(None))
  }

  function Delay(k: Kernel, c: nat, ticks: nat): Kernel
    requires c < |k.tasks|
  {
    if ticks == 0 then Yield(k, c)
    else if StoppingThread(k, Worker(c)) then Dispatch(PassThrough(k, c, DelayOp, ticks, Turn(None)))
    else
      var blocked := Dispatch(BlockIn(k, c, DelayOp, ticks));
      if DeadlineReached(Clock(k.micros), Clock(k.micros) + ticks) then Dispatch(Unblock(blocked, c, Turn(None)))
      else blocked
  }

  // ----- the scheduler-visible mutex

  function SetMutex(k: Kernel, m: nat, mutex: Mutex): Kernel
    requires m < |k.mutexes|
  {
    k.(mutexes := k.mutexes[m := mutex])
  }

  /** A waiter's standing in the hand-off: stopping tasks are passed over, host threads rank lowest. */
  function LockEntry(k: Kernel, w: Waiter): Entry {
    match w.thread
    case Host(_) => In(0, w.order)
    case Worker(i) => if i >= |k.tasks| || k.tasks[i].stopping then Out else In(k.tasks[i].priority, w.order)
  }

  function LockEntries(k: Kernel, m: nat): seq<Entry>
    requires m < |k.mutexes|
  {
    var ws := k.mutexes[m].waiters;
    seq(|ws|, j requires 0 <= j < |ws| => LockEntry(k, ws[j]))
  }

  /** unlinkWaiterLocked: the thread's entry leaves the list, the rest keeps its order. */
  function Unlinked(ws: seq<Waiter>, th: Thread): seq<Waiter> {
    if ws == [] then []
    else if ws[0].thread == th then ws[1..]
    else [ws[0]] + Unlinked(ws[1..], th)
  }

  /** Ownership passes to the chosen waiter before it is woken. */
  function Grant(k: Kernel, m: nat, w: Waiter): Kernel
    requires m < |k.mutexes| && IsThread(k, w.thread)
  {
    var x := k.mutexes[m];
    var reserved := SetPc(SetMutex(k, m, x.(waiters := Unlinked(x.waiters, w.thread), owner := Granted(w.thread))),
                          w.thread, LockWait(m, w.order, true));
    if w.thread.Worker? then Dispatch(Release(reserved, w.thread.id, Ready)) else reserved
  }

  /** SchedulerMutex::releaseLocked. */
  function ReleaseMutex(k: Kernel, m: nat): Kernel
    requires m < |k.mutexes|
  {
    var x := k.mutexes[m];
    var chosen := Select(LockEntries(k, m));
    if chosen.Some? && IsThread(k, x.waiters[chosen.value].thread) then Grant(k, m, x.waiters[chosen.value])
    else SetMutex(k, m, x.(locked := false, owner := Free))
  }

  function Lock(k: Kernel, th: Thread, m: nat): Kernel
    requires IsThread(k, th) && m < |k.mutexes|
  {
    var x := k.mutexes[m];
    if !x.locked then SetMutex(k, m, x.(locked := true, owner := Held(th)))
    else
      var order := k.nextReady;
      var linked := SetMutex(k, m, x.(waiters := [Waiter(th, order)] + x.waiters));
      match th
      case Worker(c) => Dispatch(BlockOn(linked, c, Locking, None, false, 0, LockWait(m, order, false)))
      case Host(n) => SetPc(linked, th, LockWait(m, order, false)).(nextReady := order + 1)
  }

  function TryLock(k: Kernel, th: Thread, m: nat): Kernel
    requires m < |k.mutexes|
  {
    if k.mutexes[m].locked then k else SetMutex(k, m, k.mutexes[m].(locked := true, owner := Held(th)))
  }

  function Unlock(k: Kernel, th: Thread, m: nat): Kernel
    requires IsThread(k, th) && m < |k.mutexes|
  {
    var released := ReleaseMutex(k, m);
    Preempt(released, th, None)
  }

  function LockReturn(k: Kernel, th: Thread): Kernel
    requires IsThread(k, th) && PcOf(k, th).LockWait? && PcOf(k, th).mutex < |k.mutexes|
  {
    var m := PcOf(k, th).mutex;
    SetMutex(SetPc(k, th, Code), m, k.mutexes[m].(owner := Held(th)))
  }

  /** A cancelled lock() unlinks its waiter, or passes on the ownership it was already granted. */
  function LockCancel(k: Kernel, th: Thread): Kernel
    requires IsThread(k, th) && PcOf(k, th).LockWait? && PcOf(k, th).mutex < |k.mutexes|
  {
    var m := PcOf(k, th).mutex;
    if PcOf(k, th).granted then ReleaseMutex(SetPc(k, th, Code), m)
    else SetMutex(SetPc(k, th, Code), m, k.mutexes[m].(waiters := Unlinked(k.mutexes[m].waiters, th)))
  }

  // ----- task lifecycle

  function StoppedTask(t: Task): Task {
    (if t.blocked then ReleasedTask(t, Cancelled) else t).(
      stopping := true, runnable := false,
      life := t.life.(cycle := if t.life.cycle == Running then StopRequested else t.life.cycle))
  }

  /** requestTaskStopLocked. */
  function RequestStop(k: Kernel, i: nat): Kernel
    requires i < |k.tasks|
  {
    GiveUpTurn(SetTask(k, i, StoppedTask(k.tasks[i])), i)
  }

  function Delete(k: Kernel, th: Thread, target: nat): Kernel
    requires IsThread(k, th) && target < |k.tasks|
  {
    var stopped := RequestStop(k, target);
    if th == Worker(target) then stopped else SetPc(stopped, th, Join(target))
  }

  /** furble_sim_stop_all_tasks: every registry task is asked to stop in one region. */
  function StopAll(k: Kernel): Kernel {
    k.(tasks := seq(|k.tasks|, i requires 0 <= i < |k.tasks| => if i > 0 then StoppedTask(k.tasks[i]) else k.tasks[i]),
       running := if k.running == Some(0) then Some(0) else None)
  }

  function NewTask(priority: nat, order: nat, bytes: nat): Task {
    Task(Turn(None), priority, order, 0, false, false, true, false, WaitState(NoWait, NoResult, None, false, 0, 0),
         Notes(0, 0, 0, 0, 0), Life(Running, None, 0), Heap(bytes, bytes != 0, bytes, []))
  }

  function WithNewTask(k: Kernel, priority: nat, bytes: nat): Kernel {
    k.(tasks := k.tasks + [NewTask(priority, k.nextReady, bytes)], nextReady := k.nextReady + 1)
  }

  function Create(k: Kernel, th: Thread, priority: nat, bytes: nat): Kernel
    requires IsThread(k, th)
  {
    if k.stopping then k
    else Preempt(WithNewTask(k, priority, bytes), th, None)
  }

  function Uncharged(h: Heap): Heap {
    if !h.charged then h
    else h.(charged := false, bytes := 0, released := if h.bytes != 0 then h.released + [h.bytes] else h.released)
  }

  function FinishedTask(t: Task): Task {
    t.(blocked := false, runnable := false, pc := Exited, heap := Uncharged(t.heap),
       life := t.life.(cycle :=
         if t.life.cycle == Running || t.life.cycle == StopRequested then Finished else t.life.cycle))
  }

  /** markTaskFinished, including the release of the task's heap charge. */
  function Finish(k: Kernel, c: nat): Kernel
    requires c < |k.tasks|
  {
    Dispatch(GiveUpTurn(SetTask(k, c, FinishedTask(k.tasks[c])), c))
  }

  /** One turn of joinTask's loop: return, claim the join, or keep waiting. */
  function PollJoin(k: Kernel, th: Thread): Kernel
    requires IsThread(k, th) && PcOf(k, th).Join? && PcOf(k, th).target < |k.tasks|
  {
    var target := PcOf(k, th).target;
    var t := k.tasks[target];
    match t.life.cycle
    case Joined => SetPc(k, th, Code)
    case Finished =>
      SetPc(SetTask(k, target, t.(life := t.life.(cycle := Joining, claimant := Some(th)))), th, Claimed(target))
    case _ => k
  }

  function CompleteJoin(k: Kernel, th: Thread): Kernel
    requires IsThread(k, th) && PcOf(k, th).Claimed? && PcOf(k, th).target < |k.tasks|
  {
    var target := PcOf(k, th).target;
    var t := k.tasks[target];
    SetPc(SetTask(k, target, t.(life := t.life.(cycle := Joined, joins := t.life.joins + 1))), th, Code)
  }

  // ----- turns, clock, timer service, teardown

  /** waitForTurnLocked returns. */
  function TakeTurn(k: Kernel, c: nat): Kernel
    requires c < |k.tasks| && k.tasks[c].pc.Turn?
  {
    LeaveUse(SetTask(k, c, k.tasks[c].(pc := Code)), k.tasks[c].pc.use)
  }

  /** A task reaches waitForTurnLocked: it is no longer parked. */
  function ReachTurn(k: Kernel, c: nat): Kernel
    requires c < |k.tasks|
  {
    Dispatch(Unpark(k, c))
  }

  /** A stalled turn holder is parked so that the rest of the system keeps running. */
  function Park(k: Kernel): Kernel {
    if k.running.Some? && k.running.value < |k.tasks| then
      Dispatch(SetTask(k, k.running.value, k.tasks[k.running.value].(parked := true)).(running := None))
    else k
  }

  predicate IsOverdue(now: nat, t: Task) {
    t.blocked && t.wait.timed && DeadlineReached(now, t.wait.deadline)
  }

  function ReleaseDue(k: Kernel): Kernel {
    var now := Clock(k.micros);
    k.(tasks := seq(|k.tasks|, i requires 0 <= i < |k.tasks| =>
      if i > 0 && IsOverdue(now, k.tasks[i]) then ReleasedTask(k.tasks[i], Timeout) else k.tasks[i]))
  }

  /** The timer service record queues for the turn. */
  function TimerOn(k: Kernel): Kernel
    requires |k.tasks| > 0
  {
    SetTask(k, 0, k.tasks[0].(runnable := true, readyOrder := k.nextReady)).(nextReady := k.nextReady + 1)
  }

  /** schedulerTimerDueChanged. */
  function TimerDue(k: Kernel, due: bool): Kernel
    requires |k.tasks| > 0
  {
    var t := k.tasks[0];
    if due then
      if t.runnable then Dispatch(k) else Dispatch(TimerOn(k))
    else if !k.timerExecuting then Dispatch(GiveUpTurn(SetTask(k, 0, t.(runnable := false)), 0))
    else Dispatch(k)
  }

  function Advance(k: Kernel, elapsed: nat, due: bool): Kernel
    requires |k.tasks| > 0
  {
    TimerDue(ReleaseDue(k.(micros := k.micros + elapsed)), due)
  }

  function EnteredTimer(k: Kernel): Kernel
    requires |k.tasks| > 0
  {
    var t := k.tasks[0].(parked := false, pc := Turn(None));
    if t.runnable then SetTask(k, 0, t)
    else SetTask(k, 0, t.(runnable := true, readyOrder := k.nextReady)).(nextReady := k.nextReady + 1)
  }

  /** runSchedulerTimerCallback, up to its wait for the turn. */
  function EnterTimer(k: Kernel): Kernel
    requires |k.tasks| > 0
  {
    Dispatch(EnteredTimer(k))
  }

  function StartTimer(k: Kernel): Kernel
    requires |k.tasks| > 0
  {
    SetTask(k, 0, k.tasks[0].(pc := Code)).(timerExecuting := true)
  }

  function ExitTimer(k: Kernel, due: bool): Kernel
    requires |k.tasks| > 0
  {
    Dispatch(GiveUpTurn(SetTask(k, 0, k.tasks[0].(
      runnable := due, blocked := false, pc := Idle,
      wait := k.tasks[0].wait.(kind := NoWait, result := NoResult))).(timerExecuting := false), 0))
  }

  /** furble_sim_reset_tasks after every task was joined. */
  function ResetKernel(k: Kernel): Kernel
    requires |k.tasks| > 0
  {
    SetTask(k, 0, k.tasks[0].(runnable := false, blocked := false, stopping := false,
                              wait := k.tasks[0].wait.(kind := NoWait, result := NoResult)))
      .(running := None, nextReady := 0, timerExecuting := false, stopping := false)
  }
}
