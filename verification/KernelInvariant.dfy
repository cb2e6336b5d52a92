/** What holds in every reachable state of the kernel. */
module KernelInvariant {
  import opened Selection
  import opened KernelState
  import opened KernelSteps
  import opened KernelMachine

  // ----- one task at a time

  predicate Executing(pc: Pc) { pc.Code? || pc.Join? || pc.Claimed? }

  /** One turn: a task executes only while it holds the turn, unless it was parked for stalling or is being
      torn down; and whoever holds the turn is ready to run. */
  predicate TurnOk(k: Kernel, i: nat)
    requires i < |k.tasks|
  {
    var t := k.tasks[i];
    && (Executing(t.pc) ==> k.running == Some(i) || t.parked || t.stopping || k.stopping)
    && (k.running == Some(i) ==> t.runnable && !t.blocked && !t.parked && !t.stopping && t.life.cycle == Running)
  }

  /** The wait fields describe the wait the thread is in. */
  predicate WaitOk(t: Task) {
    && (t.pc.Wait? && t.blocked ==>
          t.wait.kind == KindOf(t.pc.op) && t.wait.queue == QueueOf(t.pc.op) && t.wait.result == NoResult
            && !t.stopping)
    && (t.pc.Wait? && !t.blocked ==> t.wait.result != NoResult)
    && (t.pc.LockWait? && t.pc.granted ==> !t.blocked)
    && (t.pc.LockWait? && !t.pc.granted && !t.stopping ==> t.blocked)
    && (t.pc.LockWait? && t.blocked ==> t.wait.kind == Locking && t.waitOrder == t.pc.order)
    && (t.blocked && !t.pc.Wait? ==> t.wait.kind == Locking && t.wait.queue == None && !t.wait.timed)
    && (t.blocked && t.wait.timed ==> t.wait.deadline == t.wait.due % TICKS_WRAP)
  }

  /** Counting of notifications on a 32-bit counter. */
  predicate CountOk(t: Task) {
    && t.notes.count < TICKS_WRAP
    && t.notes.gives == t.notes.cleared + t.notes.singles + t.notes.count + TICKS_WRAP * t.notes.wraps
    && (t.blocked && t.wait.kind == Notified ==> t.notes.count == 0)
  }

  /** Lifecycle, join and heap bookkeeping of one task. */
  predicate LifeOk(t: Task) {
    && (t.pc.Exited? <==> t.life.cycle == Finished || t.life.cycle == Joining || t.life.cycle == Joined)
    && (t.pc.Exited? ==> !t.blocked && !t.runnable)
    && (t.life.cycle == StopRequested ==> t.stopping) && (t.stopping ==> t.life.cycle != Running)
    && (t.life.claimant.Some? <==> t.life.cycle == Joining || t.life.cycle == Joined)
    && t.life.joins == (if t.life.cycle == Joined then 1 else 0)
    && (if t.pc.Exited? then !t.heap.charged && t.heap.released == (if t.heap.charge == 0 then [] else [t.heap.charge])
        else t.heap.charged == (t.heap.charge != 0) && t.heap.bytes == t.heap.charge && t.heap.released == [])
  }

  predicate TaskOk(k: Kernel, i: nat)
    requires i < |k.tasks|
  {
    var t := k.tasks[i];
    && TurnOk(k, i) && WaitOk(t) && CountOk(t) && LifeOk(t)
    && (i == 0 ==>
          !t.stopping && !t.pc.Wait? && !t.pc.Exited? && (t.pc != Idle && t.pc != Turn(None) ==> k.timerExecuting))
    && (i > 0 ==> !t.pc.Idle?)
  }

  ghost predicate TasksOk(k: Kernel) {
    && |k.tasks| > 0
    && (k.running.Some? ==> k.running.value < |k.tasks|)
    && forall i {:trigger k.tasks[i]} {:trigger TaskOk(k, i)} :: 0 <= i < |k.tasks| ==> TaskOk(k, i)
  }

  // ----- order stamps

  /** The timer between callbacks and an exited task are out of the scheduler's sight. */
  predicate Live(t: Task) {
    t.runnable || t.blocked || !(t.pc.Idle? || t.pc.Exited?)
  }

  predicate StampsBelow(t: Task, bound: nat) {
    Live(t) ==> t.readyOrder < bound && (t.blocked ==> t.waitOrder < bound)
  }

  predicate StampsApart(t: Task, u: Task) {
    Live(t) && Live(u) ==>
      && t.readyOrder != u.readyOrder
      && (t.blocked ==> t.waitOrder != u.readyOrder)
      && (u.blocked ==> t.readyOrder != u.waitOrder)
      && (t.blocked && u.blocked ==> t.waitOrder != u.waitOrder)
  }

  ghost predicate StampsOk(k: Kernel) {
    && (forall i {:trigger k.tasks[i]} {:trigger StampsBelow(k.tasks[i], k.nextReady)} ::
          0 <= i < |k.tasks| ==> StampsBelow(k.tasks[i], k.nextReady))
    && (forall i, j {:trigger k.tasks[i], k.tasks[j]} {:trigger StampsApart(k.tasks[i], k.tasks[j])} ::
          0 <= i < j < |k.tasks| ==> StampsApart(k.tasks[i], k.tasks[j]))
  }

  // ----- the scheduler-visible mutex

  /** A thread inside lock() is either linked or the one the mutex was granted to. */
  predicate LockPcOk(k: Kernel, th: Thread, pc: Pc) {
    pc.LockWait? ==>
      && pc.mutex < |k.mutexes|
      && (if pc.granted then k.mutexes[pc.mutex].owner == Granted(th)
          else Waiter(th, pc.order) in k.mutexes[pc.mutex].waiters)
  }

  /** A linked waiter belongs to a thread that is still inside lock() and was not granted the mutex. */
  predicate LinkOk(k: Kernel, m: nat, w: Waiter) {
    IsThread(k, w.thread) && PcOf(k, w.thread) == LockWait(m, w.order, false) && w.order < k.nextReady
  }

  predicate OwnerOk(k: Kernel, m: nat, owner: Owner) {
    match owner
    case Free => true
    case Granted(th) => IsThread(k, th) && PcOf(k, th).LockWait? && PcOf(k, th).mutex == m && PcOf(k, th).granted
    case Held(th) => IsThread(k, th) && !PcOf(k, th).Exited? && !PcOf(k, th).Idle?
  }

  predicate IsStoppingTask(k: Kernel, th: Thread) {
    th.Worker? && th.id < |k.tasks| && k.tasks[th.id].stopping
  }

  predicate MutexOk(k: Kernel, m: nat)
    requires m < |k.mutexes|
  {
    var x := k.mutexes[m];
    && (x.locked <==> x.owner != Free)
    && OwnerOk(k, m, x.owner)
    && (forall j {:trigger x.waiters[j]} :: 0 <= j < |x.waiters| ==> LinkOk(k, m, x.waiters[j]))
    && (forall i, j :: 0 <= i < j < |x.waiters| ==> x.waiters[i].order > x.waiters[j].order)
    && (!x.locked ==> forall j {:trigger x.waiters[j]} :: 0 <= j < |x.waiters| ==>
          IsStoppingTask(k, x.waiters[j].thread))
  }

  ghost predicate MutexesOk(k: Kernel) {
    && (forall m {:trigger k.mutexes[m]} {:trigger MutexOk(k, m)} :: 0 <= m < |k.mutexes| ==> MutexOk(k, m))
    && (forall i {:trigger k.tasks[i]} :: 0 <= i < |k.tasks| ==> LockPcOk(k, Worker(i), k.tasks[i].pc))
    && (forall n {:trigger k.hosts[n]} :: 0 <= n < |k.hosts| ==> LockPcOk(k, Host(n), k.hosts[n]))
  }

  // ----- joins

  predicate JoinPcOk(k: Kernel, th: Thread, pc: Pc) {
    && (pc.Join? ==> 0 < pc.target < |k.tasks| && k.tasks[pc.target].stopping)
    && (pc.Claimed? ==>
          0 < pc.target < |k.tasks| && k.tasks[pc.target].life.cycle == Joining
          && k.tasks[pc.target].life.claimant == Some(th))
  }

  /** While a worker is being joined its claimant is the thread doing it. */
  predicate JoiningOk(k: Kernel, i: nat)
    requires i < |k.tasks|
  {
    k.tasks[i].life.cycle == Joining ==>
      k.tasks[i].life.claimant.Some? && IsThread(k, k.tasks[i].life.claimant.value)
      && PcOf(k, k.tasks[i].life.claimant.value) == Claimed(i)
  }

  ghost predicate JoinsOk(k: Kernel) {
    && (forall i {:trigger k.tasks[i]} :: 0 <= i < |k.tasks| ==>
          JoiningOk(k, i) && JoinPcOk(k, Worker(i), k.tasks[i].pc))
    && (forall n {:trigger k.hosts[n]} :: 0 <= n < |k.hosts| ==> JoinPcOk(k, Host(n), k.hosts[n]))
  }

  // ----- queues

  /** The queue whose call a task at this place has not left yet. */
  function InUse(pc: Pc): Option<nat> {
    match pc
    case Turn(use) => use
    case Wait(op) => QueueOf(op)
    case _ => None
  }

  /** The tasks inside a call on queue q. */
  function Users(k: Kernel, q: nat): set<nat> {
    set i | 0 <= i < |k.tasks| && InUse(k.tasks[i].pc) == Some(q)
  }

  /** A sender that was released because of room and has not pushed yet. */
  predicate WokenSender(t: Task, q: nat) {
    t.pc.Wait? && t.pc.op.SendOp? && t.pc.op.queue == q && t.wait.result == Ready
  }

  function WokenSenders(k: Kernel, q: nat): set<nat> {
    set i | 0 < i < |k.tasks| && WokenSender(k.tasks[i], q)
  }

  /** Every accepted item was received, discarded or is still queued; without front pushes and discards, in order. */
  predicate Conserved(x: Queue) {
    && multiset(x.accepted) == multiset(x.received) + multiset(x.discarded) + multiset(x.items)
    && (!x.fronted && x.discarded == [] ==> x.accepted == x.received + x.items)
  }

  predicate QueueOk(k: Kernel, q: nat)
    requires q < |k.queues|
  {
    var x := k.queues[q];
    && x.capacity > 0 && Conserved(x)
    && x.users == |Users(k, q)|
    && (x.deleted ==> x.items == [])
    && (x.freed ==> x.deleted && x.users == 0)
    && |x.items| + |WokenSenders(k, q)| <= x.capacity + |k.tasks| - 1
  }

  /** A thread draining a queue is the one that deleted it. */
  predicate DrainPcOk(k: Kernel, th: Thread, pc: Pc) {
    && (pc.Drain? || pc.DrainTurn? ==>
          pc.queue < |k.queues| && k.queues[pc.queue].deleted && !k.queues[pc.queue].freed
          && k.queues[pc.queue].deleter == Some(th))
    && (pc.DrainTurn? && pc.drained ==> k.queues[pc.queue].users == 0)
    && (InUse(pc).Some? ==> InUse(pc).value < |k.queues|)
  }

  ghost predicate QueuesOk(k: Kernel) {
    && (forall q {:trigger k.queues[q]} {:trigger QueueOk(k, q)} :: 0 <= q < |k.queues| ==> QueueOk(k, q))
    && (forall i {:trigger k.tasks[i]} :: 0 <= i < |k.tasks| ==> DrainPcOk(k, Worker(i), k.tasks[i].pc))
    && (forall n {:trigger k.hosts[n]} :: 0 <= n < |k.hosts| ==> DrainPcOk(k, Host(n), k.hosts[n]))
  }

  ghost predicate KernelOk(k: Kernel) {
    TasksOk(k) && StampsOk(k) && MutexesOk(k) && JoinsOk(k) && QueuesOk(k)
  }

  // ----- what each part of the invariant looks at: changes elsewhere keep it

  ghost predicate AlikeForLocks(k: Kernel, th: Thread, pc: Pc, next: Pc) {
    && (pc.LockWait? || next.LockWait? ==> next == pc)
    && (next.Exited? || next.Idle? ==> pc.Exited? || pc.Idle? || HoldsNothing(k, th))
  }

  /** Nothing a mutex depends on changed, except that tasks may have been created or asked to stop. */
  ghost predicate SameLocks(k: Kernel, r: Kernel) {
    && r.mutexes == k.mutexes && |r.hosts| == |k.hosts| && |r.tasks| >= |k.tasks| && r.nextReady >= k.nextReady
    && (forall i {:trigger r.tasks[i]} {:trigger k.tasks[i]} :: 0 <= i < |k.tasks| ==>
          AlikeForLocks(k, Worker(i), k.tasks[i].pc, r.tasks[i].pc) && (k.tasks[i].stopping ==> r.tasks[i].stopping))
    && (forall i {:trigger r.tasks[i]} :: |k.tasks| <= i < |r.tasks| ==> !r.tasks[i].pc.LockWait?)
    && (forall n {:trigger r.hosts[n]} {:trigger k.hosts[n]} :: 0 <= n < |k.hosts| ==>
          AlikeForLocks(k, Host(n), k.hosts[n], r.hosts[n]))
  }

  lemma SameLocksKeep(k: Kernel, r: Kernel)
    requires SameLocks(k, r) && MutexesOk(k)
    ensures MutexesOk(r)
  {
    forall m | 0 <= m < |r.mutexes| ensures MutexOk(r, m) {
      assert MutexOk(k, m);
    }
    forall i | 0 <= i < |r.tasks| ensures LockPcOk(r, Worker(i), r.tasks[i].pc) {
      if i < |k.tasks| { assert LockPcOk(k, Worker(i), k.tasks[i].pc); }
    }
    forall n | 0 <= n < |r.hosts| ensures LockPcOk(r, Host(n), r.hosts[n]) {
      assert LockPcOk(k, Host(n), k.hosts[n]);
    }
  }

  /** The thread keeps its part in a join, or is allowed to take up or leave the one it is now in. */
  predicate AlikeForJoins(r: Kernel, th: Thread, pc: Pc, next: Pc) {
    next == pc || (!pc.Claimed? && !next.Claimed? && JoinPcOk(r, th, next))
  }

  ghost predicate SameJoins(k: Kernel, r: Kernel) {
    && |r.hosts| == |k.hosts| && |r.tasks| >= |k.tasks|
    && (forall i {:trigger r.tasks[i]} {:trigger k.tasks[i]} :: 0 <= i < |k.tasks| ==>
          && AlikeForJoins(r, Worker(i), k.tasks[i].pc, r.tasks[i].pc) && (k.tasks[i].stopping ==> r.tasks[i].stopping)
          && r.tasks[i].life.claimant == k.tasks[i].life.claimant
          && (r.tasks[i].life.cycle == Joining <==> k.tasks[i].life.cycle == Joining))
    && (forall i {:trigger r.tasks[i]} :: |k.tasks| <= i < |r.tasks| ==>
          !r.tasks[i].pc.Join? && !r.tasks[i].pc.Claimed? && r.tasks[i].life.cycle != Joining)
    && (forall n {:trigger r.hosts[n]} {:trigger k.hosts[n]} :: 0 <= n < |k.hosts| ==>
          AlikeForJoins(r, Host(n), k.hosts[n], r.hosts[n]))
  }

  lemma SameJoinsKeep(k: Kernel, r: Kernel)
    requires SameJoins(k, r) && JoinsOk(k)
    ensures JoinsOk(r)
  {
    forall i | 0 <= i < |r.tasks| ensures JoiningOk(r, i) && JoinPcOk(r, Worker(i), r.tasks[i].pc) {
      if i < |k.tasks| { assert JoiningOk(k, i) && JoinPcOk(k, Worker(i), k.tasks[i].pc); }
    }
    forall n | 0 <= n < |r.hosts| ensures JoinPcOk(r, Host(n), r.hosts[n]) {
      assert JoinPcOk(k, Host(n), k.hosts[n]);
    }
  }

  /** The thread stays inside the same queue call, and drains a queue only if it may. */
  predicate AlikeForQueues(r: Kernel, th: Thread, pc: Pc, next: Pc) {
    InUse(next) == InUse(pc) && (next == pc || DrainPcOk(r, th, next))
  }

  ghost predicate SameUses(k: Kernel, r: Kernel) {
    && r.queues == k.queues && |r.hosts| == |k.hosts| && |r.tasks| >= |k.tasks|
    && (forall i {:trigger r.tasks[i]} {:trigger k.tasks[i]} :: 0 <= i < |k.tasks| ==>
          && AlikeForQueues(r, Worker(i), k.tasks[i].pc, r.tasks[i].pc)
          && (forall q :: WokenSender(r.tasks[i], q) ==> WokenSender(k.tasks[i], q)))
    && (forall i {:trigger r.tasks[i]} :: |k.tasks| <= i < |r.tasks| ==> r.tasks[i].pc == Turn(None))
    && (forall n {:trigger r.hosts[n]} {:trigger k.hosts[n]} :: 0 <= n < |k.hosts| ==>
          AlikeForQueues(r, Host(n), k.hosts[n], r.hosts[n]))
  }

  lemma SubsetCount<T>(a: set<T>, b: set<T>)
    requires a <= b
    ensures |a| <= |b|
  {
    var rest := b - a;
    assert b == a + rest && |a + rest| == |a| + |rest|;
  }

  lemma SameUsesKeep(k: Kernel, r: Kernel)
    requires SameUses(k, r) && QueuesOk(k)
    ensures QueuesOk(r)
  {
    forall q | 0 <= q < |r.queues| ensures QueueOk(r, q) {
      assert QueueOk(k, q);
      assert Users(r, q) == Users(k, q);
      assert WokenSenders(r, q) <= WokenSenders(k, q);
      SubsetCount(WokenSenders(r, q), WokenSenders(k, q));
    }
    forall i | 0 <= i < |r.tasks| ensures DrainPcOk(r, Worker(i), r.tasks[i].pc) {
      if i < |k.tasks| { assert DrainPcOk(k, Worker(i), k.tasks[i].pc); }
    }
    forall n | 0 <= n < |r.hosts| ensures DrainPcOk(r, Host(n), r.hosts[n]) {
      assert DrainPcOk(k, Host(n), k.hosts[n]);
    }
  }

  /** The queues are looked at only by their own part of the invariant. */
  ghost predicate SameTasks(k: Kernel, r: Kernel) {
    r == k.(queues := r.queues)
  }

  lemma SameTasksKeep(k: Kernel, r: Kernel)
    requires SameTasks(k, r) && TasksOk(k) && StampsOk(k) && MutexesOk(k) && JoinsOk(k)
    ensures TasksOk(r) && StampsOk(r) && MutexesOk(r) && JoinsOk(r)
  {
    assert r.tasks == k.tasks && r.hosts == k.hosts;
    forall i | 0 <= i < |r.tasks| ensures TaskOk(r, i) { assert TaskOk(k, i); }
    SameLocksKeep(k, r);
    SameJoinsKeep(k, r);
  }
}
