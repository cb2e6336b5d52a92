/** Each helper of a locked region keeps the invariant. */
module KernelPrimitives {
  import opened Selection
  import opened KernelState
  import opened KernelSteps
  import opened KernelMachine
  import opened KernelInvariant

  // ----- one task changed

  /** Only task `c` changed, and at most `c` lost the turn. */
  ghost predicate OnlyTask(k: Kernel, r: Kernel, c: nat) {
    && c < |k.tasks| == |r.tasks|
    && r.tasks == k.tasks[c := r.tasks[c]]
    && (r.running == k.running || (k.running == Some(c) && r.running == None))
    && r.stopping == k.stopping && (r.timerExecuting == k.timerExecuting || c == 0)
  }

  lemma OnlyTaskOk(k: Kernel, r: Kernel, c: nat)
    requires TasksOk(k) && OnlyTask(k, r, c) && TaskOk(r, c)
    ensures TasksOk(r)
  {
    forall i | 0 <= i < |r.tasks| ensures TaskOk(r, i) {
      if i != c { assert r.tasks[i] == k.tasks[i] && TaskOk(k, i); }
    }
  }

  /** The task carries no stamp it did not carry before. */
  predicate StampsWithin(t: Task, u: Task) {
    Live(u) ==>
      && Live(t)
      && (u.readyOrder == t.readyOrder || (t.blocked && u.readyOrder == t.waitOrder))
      && (u.blocked ==> t.blocked && u.waitOrder == t.waitOrder)
  }

  lemma StampsKept(k: Kernel, r: Kernel)
    requires StampsOk(k) && |r.tasks| == |k.tasks| && r.nextReady >= k.nextReady
    requires forall i {:trigger r.tasks[i]} :: 0 <= i < |k.tasks| ==> StampsWithin(k.tasks[i], r.tasks[i])
    ensures StampsOk(r)
  {
    forall i, j | 0 <= i < j < |r.tasks| ensures StampsApart(r.tasks[i], r.tasks[j]) {
      assert StampsApart(k.tasks[i], k.tasks[j]);
    }
  }

  /** The stamps of task `c` are its own or the next unused one. */
  predicate StampsFresh(t: Task, u: Task, next: nat) {
    && (u.readyOrder == next || (Live(t) && u.readyOrder == t.readyOrder) || (t.blocked && u.readyOrder == t.waitOrder))
    && (u.blocked ==> u.waitOrder == next || (t.blocked && u.waitOrder == t.waitOrder))
  }

  lemma StampsRenewed(k: Kernel, r: Kernel, c: nat)
    requires StampsOk(k) && c < |k.tasks| == |r.tasks| && r.nextReady == k.nextReady + 1
    requires r.tasks == k.tasks[c := r.tasks[c]] && StampsFresh(k.tasks[c], r.tasks[c], k.nextReady)
    ensures StampsOk(r)
  {
    forall i | 0 <= i < |r.tasks| ensures StampsBelow(r.tasks[i], r.nextReady) {
      assert StampsBelow(k.tasks[i], k.nextReady);
    }
    forall i, j | 0 <= i < j < |r.tasks| ensures StampsApart(r.tasks[i], r.tasks[j]) {
      assert StampsApart(k.tasks[i], k.tasks[j]);
      assert StampsBelow(k.tasks[i], k.nextReady) && StampsBelow(k.tasks[j], k.nextReady);
    }
  }

  predicate StampsStep(k: Kernel, r: Kernel, c: nat)
    requires c < |k.tasks| && c < |r.tasks|
  {
    || (r.nextReady == k.nextReady + 1 && StampsFresh(k.tasks[c], r.tasks[c], k.nextReady))
    || (r.nextReady == k.nextReady && StampsWithin(k.tasks[c], r.tasks[c]))
  }

  /** The mutexes and joins do not see the change of task `c`. */
  ghost predicate SameElsewhere(k: Kernel, r: Kernel, c: nat)
    requires c < |k.tasks| == |r.tasks|
  {
    && r.mutexes == k.mutexes && r.hosts == k.hosts
    && AlikeForLocks(k, Worker(c), k.tasks[c].pc, r.tasks[c].pc)
       && AlikeForJoins(r, Worker(c), k.tasks[c].pc, r.tasks[c].pc)
    && r.tasks[c].stopping == k.tasks[c].stopping && r.tasks[c].life == k.tasks[c].life
  }

  lemma DispatchKeeps(k: Kernel)
    requires KernelOk(k)
    ensures KernelOk(Dispatch(k))
  {
    hide TasksOk, StampsOk, MutexesOk, JoinsOk, QueuesOk;
    DispatchTasks(k);
    RunningKeeps(k, Dispatch(k));
  }

  lemma DispatchTasks(k: Kernel)
    requires TasksOk(k)
    ensures TasksOk(Dispatch(k))
  {
    var r := Dispatch(k);
    forall i | 0 <= i < |r.tasks| ensures TaskOk(r, i) { assert TaskOk(k, i); }
  }

  /** Only the tasks' part of the invariant looks at the turn. */
  lemma RunningKeeps(k: Kernel, r: Kernel)
    requires StampsOk(k) && MutexesOk(k) && JoinsOk(k) && QueuesOk(k) && r == k.(running := r.running)
    ensures StampsOk(r) && MutexesOk(r) && JoinsOk(r) && QueuesOk(r)
  {
    assert SameLocks(k, r) && SameJoins(k, r) && SameUses(k, r);
    hide MutexesOk, JoinsOk, QueuesOk;
    SameLocksKeep(k, r);
    SameJoinsKeep(k, r);
    SameUsesKeep(k, r);
  }

  // ----- entering and leaving a queue's call

  /** Task `c` moved into or out of a queue's call, and the user counts followed it. */
  ghost predicate MovesUse(k: Kernel, r: Kernel, c: nat) {
    && OnlyTask(k, r, c) && r.hosts == k.hosts && |r.queues| == |k.queues|
    && (forall q {:trigger r.queues[q]} {:trigger k.queues[q]} :: 0 <= q < |k.queues| ==>
          && r.queues[q] == k.queues[q].(users := r.queues[q].users)
          && r.queues[q].users + Count(InUse(k.tasks[c].pc) == Some(q)) ==
             k.queues[q].users + Count(InUse(r.tasks[c].pc) == Some(q)))
    && (forall q :: WokenSender(r.tasks[c], q) ==> WokenSender(k.tasks[c], q))
  }

  function Count(b: bool): nat { if b then 1 else 0 }

  lemma UsersMoved(k: Kernel, r: Kernel, c: nat, q: nat)
    requires OnlyTask(k, r, c)
    ensures |Users(r, q)| + Count(InUse(k.tasks[c].pc) == Some(q)) ==
              |Users(k, q)| + Count(InUse(r.tasks[c].pc) == Some(q))
  {
    var others := Users(k, q) - {c};
    assert Users(k, q) == if InUse(k.tasks[c].pc) == Some(q) then others + {c} else others;
    assert Users(r, q) == if InUse(r.tasks[c].pc) == Some(q) then others + {c} else others;
  }

  lemma SendersMoved(k: Kernel, r: Kernel, c: nat, q: nat)
    requires OnlyTask(k, r, c) && c > 0
    ensures |WokenSenders(r, q)| + Count(WokenSender(k.tasks[c], q)) ==
              |WokenSenders(k, q)| + Count(WokenSender(r.tasks[c], q))
  {
    var others := WokenSenders(k, q) - {c};
    assert WokenSenders(k, q) == if WokenSender(k.tasks[c], q) then others + {c} else others;
    assert WokenSenders(r, q) == if WokenSender(r.tasks[c], q) then others + {c} else others;
  }

  lemma MovesUseKeep(k: Kernel, r: Kernel, c: nat)
    requires QueuesOk(k) && MovesUse(k, r, c)
    requires DrainPcOk(r, Worker(c), r.tasks[c].pc)
    requires forall q :: 0 <= q < |k.queues| && InUse(r.tasks[c].pc) == Some(q) && InUse(k.tasks[c].pc) != Some(q) ==>
               !k.queues[q].deleted
    ensures QueuesOk(r)
  {
    forall q | 0 <= q < |r.queues| ensures QueueOk(r, q) {
      assert QueueOk(k, q);
      UsersMoved(k, r, c, q);
      assert WokenSenders(r, q) <= WokenSenders(k, q);
      SubsetCount(WokenSenders(r, q), WokenSenders(k, q));
    }
    forall i | 0 <= i < |r.tasks| ensures DrainPcOk(r, Worker(i), r.tasks[i].pc) {
      if i != c { DrainStays(k, r, c, Worker(i)); }
    }
    forall n | 0 <= n < |r.hosts| ensures DrainPcOk(r, Host(n), r.hosts[n]) {
      DrainStays(k, r, c, Host(n));
    }
  }

  lemma DrainStays(k: Kernel, r: Kernel, c: nat, th: Thread)
    requires QueuesOk(k) && MovesUse(k, r, c) && IsThread(k, th) && th != Worker(c)
    requires forall q :: 0 <= q < |k.queues| && InUse(r.tasks[c].pc) == Some(q) && InUse(k.tasks[c].pc) != Some(q) ==>
               !k.queues[q].deleted
    ensures PcOf(r, th) == PcOf(k, th) && DrainPcOk(r, th, PcOf(r, th))
  {
    var pc := PcOf(k, th);
    assert DrainPcOk(k, th, pc);
    if pc.Drain? || pc.DrainTurn? {
      assert QueueOk(k, pc.queue);
      UsersMoved(k, r, c, pc.queue);
    }
  }

  /** A change of one task and of the counts of the queues it uses. */
  lemma MoveKeeps(k: Kernel, r: Kernel, c: nat)
    requires KernelOk(k) && MovesUse(k, r, c) && TaskOk(r, c) && StampsStep(k, r, c)
    requires DrainPcOk(r, Worker(c), r.tasks[c].pc)
    requires forall q :: 0 <= q < |k.queues| && InUse(r.tasks[c].pc) == Some(q) && InUse(k.tasks[c].pc) != Some(q) ==>
               !k.queues[q].deleted
    requires SameElsewhere(k, r, c)
    ensures KernelOk(r)
  {
    hide TasksOk, StampsOk, MutexesOk, JoinsOk, QueuesOk, TaskOk, DrainPcOk;
    OnlyTaskOk(k, r, c);
    assert SameLocks(k, r) && SameJoins(k, r);
    if r.nextReady == k.nextReady { StampsKept(k, r); } else { StampsRenewed(k, r, c); }
    SameLocksKeep(k, r);
    SameJoinsKeep(k, r);
    MovesUseKeep(k, r, c);
  }

  /** A change of one task that no shared object notices. */
  lemma OnlyTaskKeeps(k: Kernel, r: Kernel, c: nat)
    requires KernelOk(k) && OnlyTask(k, r, c) && TaskOk(r, c) && SameElsewhere(k, r, c) && StampsStep(k, r, c)
    requires r.queues == k.queues && AlikeForQueues(r, Worker(c), k.tasks[c].pc, r.tasks[c].pc)
    requires forall q :: WokenSender(r.tasks[c], q) ==> WokenSender(k.tasks[c], q)
    ensures KernelOk(r)
  {
    assert DrainPcOk(k, Worker(c), k.tasks[c].pc);
    hide KernelOk;
    MoveKeeps(k, r, c);
  }

  predicate CanEnter(k: Kernel, use: Option<nat>) {
    use.Some? ==> use.value < |k.queues| && !k.queues[use.value].deleted
  }

  lemma Facts(k: Kernel, c: nat)
    requires KernelOk(k) && c < |k.tasks|
    ensures TaskOk(k, c)
    ensures InUse(k.tasks[c].pc).Some? ==>
              InUse(k.tasks[c].pc).value < |k.queues| && k.queues[InUse(k.tasks[c].pc).value].users > 0
  {
    assert TaskOk(k, c);
    var use := InUse(k.tasks[c].pc);
    if use.Some? {
      assert DrainPcOk(k, Worker(c), k.tasks[c].pc);
      assert QueueOk(k, use.value);
      assert c in Users(k, use.value);
    }
  }

  lemma SwitchOutKeeps(k: Kernel, c: nat, use: Option<nat>)
    requires KernelOk(k) && c < |k.tasks| && k.running == Some(c) && k.tasks[c].pc == Code && CanEnter(k, use)
    ensures KernelOk(SwitchOut(k, c, use))
  {
    hide KernelOk;
    Facts(k, c);
    MoveKeeps(k, SwitchOut(k, c, use), c);
  }

  lemma PreemptKeeps(k: Kernel, th: Thread, use: Option<nat>)
    requires KernelOk(k) && IsThread(k, th) && PcOf(k, th) == Code && CanEnter(k, use)
    ensures KernelOk(Preempt(k, th, use))
  {
    hide KernelOk, SwitchOut;
    if MustPreempt(k, th) {
      SwitchOutKeeps(k, th.id, use);
      DispatchKeeps(SwitchOut(k, th.id, use));
    }
  }

  lemma BlockInTask(k: Kernel, c: nat, op: Op, ticks: nat)
    requires 0 < c < |k.tasks| && k.tasks[c].pc == Code && !k.tasks[c].stopping
    requires TaskOk(k, c) && (op.TakeOp? ==> k.tasks[c].notes.count == 0)
    ensures TaskOk(BlockIn(k, c, op, ticks), c)
  {
    var blocked := BlockOn(k, c, KindOf(op), QueueOf(op), op.DelayOp? || ticks != MAX_DELAY, ticks, Wait(op));
    assert TaskOk(blocked, c);
    hide BlockOn, CountOk, WaitOk, LifeOk;
  }

  lemma BlockInStamps(k: Kernel, c: nat, op: Op, ticks: nat)
    requires 0 < c < |k.tasks| && k.tasks[c].pc == Code
    ensures StampsStep(k, BlockIn(k, c, op, ticks), c) && SameElsewhere(k, BlockIn(k, c, op, ticks), c)
  {
  }

  lemma BlockInUse(k: Kernel, c: nat, op: Op, ticks: nat)
    requires 0 < c < |k.tasks| && k.tasks[c].pc == Code && CanEnter(k, QueueOf(op))
    ensures MovesUse(k, BlockIn(k, c, op, ticks), c)
    ensures DrainPcOk(BlockIn(k, c, op, ticks), Worker(c), BlockIn(k, c, op, ticks).tasks[c].pc)
    ensures InUse(BlockIn(k, c, op, ticks).tasks[c].pc) == QueueOf(op)
  {
  }

  lemma BlockInKeeps(k: Kernel, c: nat, op: Op, ticks: nat)
    requires KernelOk(k) && 0 < c < |k.tasks| && k.tasks[c].pc == Code && !k.tasks[c].stopping
    requires CanEnter(k, QueueOf(op)) && (op.TakeOp? ==> k.tasks[c].notes.count == 0)
    ensures KernelOk(BlockIn(k, c, op, ticks))
  {
    hide KernelOk, TaskOk, MovesUse, BlockIn;
    Facts(k, c);
    BlockInTask(k, c, op, ticks);
    BlockInStamps(k, c, op, ticks);
    BlockInUse(k, c, op, ticks);
    MoveKeeps(k, BlockIn(k, c, op, ticks), c);
  }

  lemma PassThroughKeeps(k: Kernel, c: nat, op: Op, ticks: nat, pc: Pc)
    requires KernelOk(k) && 0 < c < |k.tasks| && k.tasks[c].pc == Code && StoppingThread(k, Worker(c))
    requires pc == Code || pc == Turn(None)
    ensures KernelOk(PassThrough(k, c, op, ticks, pc))
  {
    hide KernelOk;
    Facts(k, c);
    OnlyTaskKeeps(k, PassThrough(k, c, op, ticks, pc), c);
  }

  lemma AwakenTask(k: Kernel, c: nat)
    requires 0 < c < |k.tasks| && TaskOk(k, c) && k.tasks[c].pc.Wait?
    requires StoppingThread(k, Worker(c)) || k.running == Some(c)
    ensures TaskOk(Awaken(k, c), c)
    ensures StampsStep(k, Awaken(k, c), c) && SameElsewhere(k, Awaken(k, c), c)
  {
  }

  lemma AwakenUse(k: Kernel, c: nat)
    requires 0 < c < |k.tasks| && k.tasks[c].pc.Wait?
    requires InUse(k.tasks[c].pc).Some? ==>
               InUse(k.tasks[c].pc).value < |k.queues| && k.queues[InUse(k.tasks[c].pc).value].users > 0
    ensures MovesUse(k, Awaken(k, c), c) && Awaken(k, c).tasks[c].pc == Code
  {
  }

  lemma AwakenKeeps(k: Kernel, c: nat)
    requires KernelOk(k) && Enabled(k, DoResume(c))
    ensures KernelOk(Awaken(k, c))
  {
    hide KernelOk, MovesUse, Awaken;
    Facts(k, c);
    AwakenTask(k, c);
    AwakenUse(k, c);
    MoveKeeps(k, Awaken(k, c), c);
  }

  lemma TakeTurnKeeps(k: Kernel, c: nat)
    requires KernelOk(k) && Enabled(k, DoTakeTurn(c))
    ensures KernelOk(TakeTurn(k, c))
  {
    hide KernelOk, MovesUse, TakeTurn, TaskOk;
    Facts(k, c);
    TakenTurnTask(k, c);
    TakenTurnUse(k, c);
    MoveKeeps(k, TakeTurn(k, c), c);
  }

  lemma TakenTurnTask(k: Kernel, c: nat)
    requires c < |k.tasks| && k.tasks[c].pc.Turn? && TaskOk(k, c)
             && (StoppingThread(k, Worker(c)) || k.running == Some(c))
    requires c == 0 ==> k.timerExecuting
    ensures TaskOk(TakeTurn(k, c), c)
    ensures StampsStep(k, TakeTurn(k, c), c) && SameElsewhere(k, TakeTurn(k, c), c)
  {
  }

  lemma TakenTurnUse(k: Kernel, c: nat)
    requires c < |k.tasks| && k.tasks[c].pc.Turn?
    requires InUse(k.tasks[c].pc).Some? ==>
               InUse(k.tasks[c].pc).value < |k.queues| && k.queues[InUse(k.tasks[c].pc).value].users > 0
    ensures MovesUse(k, TakeTurn(k, c), c) && TakeTurn(k, c).tasks[c].pc == Code
  {
  }

  // ----- waking one waiter of a queue

  /** Room for one more item or one more released sender. */
  predicate Slack(k: Kernel, q: nat)
    requires q < |k.queues|
  {
    |k.queues[q].items| + |WokenSenders(k, q)| < k.queues[q].capacity + |k.tasks| - 1
  }

  lemma ReleaseUses(k: Kernel, i: nat)
    requires QueuesOk(k) && 0 < i < |k.tasks| && k.tasks[i].pc.Wait?
    requires k.tasks[i].pc.op.SendOp? ==> Slack(k, k.tasks[i].pc.op.queue)
    ensures QueuesOk(Release(k, i, Ready))
  {
    var r := Release(k, i, Ready);
    forall q | 0 <= q < |r.queues| ensures QueueOk(r, q) {
      assert QueueOk(k, q);
      UsersMoved(k, r, i, q);
      SendersMoved(k, r, i, q);
    }
    forall j | 0 <= j < |r.tasks| ensures DrainPcOk(r, Worker(j), r.tasks[j].pc) {
      assert DrainPcOk(k, Worker(j), k.tasks[j].pc);
    }
  }

  lemma ReleaseKeeps(k: Kernel, i: nat)
    requires KernelOk(k) && 0 < i < |k.tasks| && k.tasks[i].blocked && k.tasks[i].pc.Wait?
    requires k.tasks[i].pc.op.SendOp? ==> k.tasks[i].pc.op.queue < |k.queues| && Slack(k, k.tasks[i].pc.op.queue)
    ensures KernelOk(Release(k, i, Ready))
  {
    hide TasksOk, StampsOk, MutexesOk, JoinsOk, QueuesOk, TaskOk, Slack;
    ReleaseUses(k, i);
    var r := Release(k, i, Ready);
    Facts(k, i);
    ReleasedTaskOk(k, i);
    OnlyTaskOk(k, r, i);
    StampsKept(k, r);
    SameLocksKeep(k, r);
    SameJoinsKeep(k, r);
  }

  lemma ReleasedTaskOk(k: Kernel, i: nat)
    requires 0 < i < |k.tasks| && TaskOk(k, i) && k.tasks[i].blocked && k.tasks[i].pc.Wait?
    ensures TaskOk(Release(k, i, Ready), i)
  {
  }

  lemma PublishKeeps(k: Kernel, th: Thread, q: nat, kind: WaitKind)
    requires KernelOk(k) && IsThread(k, th) && PcOf(k, th) == Code && CanEnter(k, Some(q))
    requires kind == Receiving || (kind == Sending && Slack(k, q))
    ensures KernelOk(Publish(k, th, q, kind))
  {
    hide KernelOk;
    var chosen := QueueWaiter(k, q, kind);
    if chosen.Some? {
      Facts(k, chosen.value);
      ReleaseKeeps(k, chosen.value);
    }
    var released := ReleaseQueueWaiter(k, q, kind);
    assert PcOf(released, th) == Code;
    DispatchKeeps(released);
    PreemptKeeps(Dispatch(released), th, Some(q));
  }

  // ----- queue contents

  lemma SetQueueKeeps(k: Kernel, q: nat, x: Queue)
    requires KernelOk(k) && q < |k.queues| && QueueOk(SetQueue(k, q, x), q)
    requires x.deleted == k.queues[q].deleted && x.deleter == k.queues[q].deleter && x.freed == k.queues[q].freed
    requires x.users == k.queues[q].users
    ensures KernelOk(SetQueue(k, q, x))
  {
    hide TasksOk, StampsOk, MutexesOk, JoinsOk, QueueOk, DrainPcOk;
    var r := SetQueue(k, q, x);
    SameTasksKeep(k, r);
    forall p | 0 <= p < |r.queues| ensures QueueOk(r, p) {
      assert QueueOk(k, p);
      if p != q { OtherQueueOk(k, r, p); }
    }
    forall i | 0 <= i < |r.tasks| ensures DrainPcOk(r, Worker(i), r.tasks[i].pc) {
      assert DrainPcOk(k, Worker(i), k.tasks[i].pc);
      SameDrainOk(k, q, x, Worker(i), k.tasks[i].pc);
    }
    forall n | 0 <= n < |r.hosts| ensures DrainPcOk(r, Host(n), r.hosts[n]) {
      assert DrainPcOk(k, Host(n), k.hosts[n]);
      SameDrainOk(k, q, x, Host(n), k.hosts[n]);
    }
  }

  lemma OtherQueueOk(k: Kernel, r: Kernel, p: nat)
    requires r.tasks == k.tasks && p < |k.queues| == |r.queues| && r.queues[p] == k.queues[p] && QueueOk(k, p)
    ensures QueueOk(r, p)
  {
    hide Conserved;
    assert Users(r, p) == Users(k, p) && WokenSenders(r, p) == WokenSenders(k, p);
  }

  lemma SameDrainOk(k: Kernel, q: nat, x: Queue, th: Thread, pc: Pc)
    requires q < |k.queues| && DrainPcOk(k, th, pc)
    requires x.deleted == k.queues[q].deleted && x.deleter == k.queues[q].deleter && x.freed == k.queues[q].freed
    requires x.users == k.queues[q].users
    ensures DrainPcOk(SetQueue(k, q, x), th, pc)
  {
  }

  lemma PushConserves(x: Queue, item: Item, front: bool)
    requires Conserved(x)
    ensures Conserved(x.(items := if front then [item] + x.items else x.items + [item],
                         accepted := x.accepted + [item], fronted := x.fronted || front))
  {
    assert multiset(x.items + [item]) == multiset(x.items) + multiset{item};
    assert multiset([item] + x.items) == multiset(x.items) + multiset{item};
    assert x.accepted + [item] == x.accepted + [item];
    assert multiset(x.accepted + [item]) == multiset(x.accepted) + multiset{item};
    assert x.received + x.items + [item] == x.received + (x.items + [item]);
  }

  lemma PopConserves(x: Queue)
    requires Conserved(x) && x.items != []
    ensures Conserved(x.(items := x.items[1..], received := x.received + [x.items[0]]))
  {
    assert x.items == [x.items[0]] + x.items[1..];
    assert x.received + x.items == x.received + [x.items[0]] + x.items[1..];
    assert multiset(x.received + [x.items[0]]) == multiset(x.received) + multiset{x.items[0]};
    assert multiset(x.items) == multiset{x.items[0]} + multiset(x.items[1..]);
  }

  lemma DiscardConserves(x: Queue)
    requires Conserved(x)
    ensures Conserved(x.(items := [], discarded := x.discarded + x.items))
  {
    assert multiset(x.discarded + x.items) == multiset(x.discarded) + multiset(x.items);
    if x.discarded + x.items == [] {
      assert x.items == [] && x.discarded == [];
    }
  }

  lemma PushKeeps(k: Kernel, q: nat, item: Item, front: bool)
    requires KernelOk(k) && q < |k.queues| && !k.queues[q].deleted && Slack(k, q)
    ensures KernelOk(Push(k, q, item, front))
  {
    assert QueueOk(k, q);
    PushConserves(k.queues[q], item, front);
    var r := Push(k, q, item, front);
    assert Users(r, q) == Users(k, q) && WokenSenders(r, q) == WokenSenders(k, q);
    SetQueueKeeps(k, q, r.queues[q]);
  }

  lemma PopKeeps(k: Kernel, q: nat)
    requires KernelOk(k) && q < |k.queues| && k.queues[q].items != []
    ensures KernelOk(Pop(k, q)) && Slack(Pop(k, q), q)
  {
    assert QueueOk(k, q);
    PopConserves(k.queues[q]);
    var r := Pop(k, q);
    assert Users(r, q) == Users(k, q) && WokenSenders(r, q) == WokenSenders(k, q);
    SetQueueKeeps(k, q, r.queues[q]);
  }

  lemma SendersBounded(k: Kernel, q: nat)
    requires |k.tasks| > 0
    ensures |WokenSenders(k, q)| <= |k.tasks| - 1
  {
    BoundedSet(WokenSenders(k, q), |k.tasks|);
  }

  lemma {:induction false} BoundedSet(s: set<nat>, n: nat)
    requires n > 0 && forall x :: x in s ==> 0 < x < n
    ensures |s| <= n - 1
  {
    if n == 1 {
      assert s == {};
    } else {
      BoundedSet(s - {n - 1}, n - 1);
      assert n - 1 !in s ==> s - {n - 1} == s;
    }
  }

  lemma ClearKeeps(k: Kernel, q: nat)
    requires KernelOk(k) && q < |k.queues|
    ensures var x := k.queues[q]; var r := SetQueue(k, q, x.(items := [], discarded := x.discarded + x.items));
            KernelOk(r) && Slack(r, q)
  {
    var x := k.queues[q];
    assert QueueOk(k, q);
    DiscardConserves(x);
    var r := SetQueue(k, q, x.(items := [], discarded := x.discarded + x.items));
    assert Users(r, q) == Users(k, q) && WokenSenders(r, q) == WokenSenders(k, q);
    SendersBounded(k, q);
    SetQueueKeeps(k, q, r.queues[q]);
  }
}
