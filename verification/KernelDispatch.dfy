/** Deterministic dispatch: who holds the turn in a reachable state, and who gets it next. */
module KernelDispatch {
  import opened Selection
  import opened KernelState
  import opened KernelSteps
  import opened KernelMachine
  import opened KernelInvariant
  import opened KernelPrimitives
  import opened KernelSafety
  import opened KernelProgress

  /** After every run from boot the turn holder is ready to run (or everything is being torn down), and two different
      tasks are in firmware code only if one of them was parked for stalling or is stopping. */
  lemma OneTurn(start: Kernel, run: seq<Step>, i: nat, j: nat)
    requires Initial(start) && IsRun(start, run) && !After(start, run).stopping
    requires i < |After(start, run).tasks| && j < |After(start, run).tasks|
    ensures var k := After(start, run);
            && (k.running == Some(i) ==> IsReady(k, i))
            && (Executing(k.tasks[i].pc) && Executing(k.tasks[j].pc) && i != j ==>
                  k.tasks[i].parked || k.tasks[i].stopping || k.tasks[j].parked || k.tasks[j].stopping)
  {
    Reachable(start, run);
    Facts(After(start, run), i);
    Facts(After(start, run), j);
  }

  /** The task may be given the turn. */
  predicate IsReady(k: Kernel, i: nat) {
    && i < |k.tasks|
    && var t := k.tasks[i];
       t.runnable && !t.blocked && !t.parked && !t.stopping && !k.stopping && t.life.cycle == Running
  }

  /** Higher priority first, and among equals the one that queued up earlier. */
  predicate RunsBefore(t: Task, u: Task) {
    t.priority > u.priority || (t.priority == u.priority && t.readyOrder < u.readyOrder)
  }

  /** The one ready task that comes before all others. */
  ghost predicate RunsNext(k: Kernel, i: nat) {
    IsReady(k, i) && forall j: nat :: IsReady(k, j) && j != i ==> RunsBefore(k.tasks[i], k.tasks[j])
  }

  /** The task is blocked on that queue for that reason. */
  predicate WaitsFor(k: Kernel, q: nat, kind: WaitKind, i: nat) {
    && 0 < i < |k.tasks| && k.tasks[i].blocked && k.tasks[i].wait.queue == Some(q) && k.tasks[i].wait.kind == kind
  }

  /** Higher priority first, and among equals the one that has been blocked longer. */
  predicate WokenBefore(t: Task, u: Task) {
    t.priority > u.priority || (t.priority == u.priority && t.waitOrder < u.waitOrder)
  }

  /** The one task blocked on that queue that is woken before all others. */
  ghost predicate WokenNext(k: Kernel, q: nat, kind: WaitKind, i: nat) {
    WaitsFor(k, q, kind, i) && forall j: nat :: WaitsFor(k, q, kind, j) && j != i ==>
      WokenBefore(k.tasks[i], k.tasks[j])
  }

  lemma RunsNextIff(k: Kernel, i: nat)
    ensures RunsNext(k, i) <==> IsBest(ReadyEntries(k), i)
  {
    var es := ReadyEntries(k);
    assert forall j :: 0 <= j < |es| ==> (es[j].In? <==> IsReady(k, j));
    if RunsNext(k, i) {
      forall j | 0 <= j < |es| && j != i
        ensures Beats(es[i], es[j]) { assert IsReady(k, j) ==> RunsBefore(k.tasks[i], k.tasks[j]); }
    }
    if IsBest(es, i) {
      forall j: nat | IsReady(k, j) && j != i ensures RunsBefore(k.tasks[i], k.tasks[j]) { assert Beats(es[i], es[j]); }
    }
  }

  lemma WokenNextIff(k: Kernel, q: nat, kind: WaitKind, i: nat)
    ensures WokenNext(k, q, kind, i) <==> IsBest(WaitEntries(k, q, kind), i)
  {
    var es := WaitEntries(k, q, kind);
    assert forall j :: 0 <= j < |es| ==> (es[j].In? <==> WaitsFor(k, q, kind, j));
    if WokenNext(k, q, kind, i) {
      forall j | 0 <= j < |es| && j != i ensures Beats(es[i], es[j]) {
        assert WaitsFor(k, q, kind, j) ==> WokenBefore(k.tasks[i], k.tasks[j]);
      }
    }
    if IsBest(es, i) {
      forall j: nat | WaitsFor(k, q, kind, j) && j != i ensures WokenBefore(k.tasks[i], k.tasks[j]) {
        assert Beats(es[i], es[j]);
      }
    }
  }

  /** The ready tasks as candidates, in the order of their numbers. */
  function ReadyEntries(k: Kernel): seq<Entry> {
    seq(|k.tasks|, i requires 0 <= i < |k.tasks| => ReadyEntry(k.stopping, k.tasks[i]))
  }

  lemma ReadyStampsDistinct(k: Kernel)
    requires KernelOk(k)
    ensures DistinctOrders(ReadyEntries(k))
  {
    var es := ReadyEntries(k);
    forall i, j | 0 <= i < j < |es| && es[i].In? && es[j].In? ensures es[i].order != es[j].order {
      assert StampsApart(k.tasks[i], k.tasks[j]);
    }
  }

  /** The scan goes through all tasks: nobody it leaves out is ready, and nobody ready beats its choice. */
  lemma ScanCovers(k: Kernel, i: nat)
    requires i < |k.tasks|
    ensures ReadyTask(k.stopping, k.tasks[i]) ==> NextRunnable(k).Some?
    ensures NextRunnable(k).Some? ==>
              !Beats(ReadyEntry(k.stopping, k.tasks[i]), ReadyEntry(k.stopping, k.tasks[NextRunnable(k).value]))
  {
    var es := ScanEntries(k);
    var at := if i == 0 then |k.tasks| - 1 else i - 1;
    assert es[at] == ReadyEntry(k.stopping, k.tasks[i]);
    var r := Select(es);
    if r.Some? {
      assert es[r.value] == ReadyEntry(k.stopping, k.tasks[ScanIndex(k, r.value)]);
      assert !Beats(es[at], es[r.value]);
    }
  }

  lemma WaitStampsDistinct(k: Kernel, q: nat, kind: WaitKind)
    requires KernelOk(k)
    ensures DistinctOrders(WaitEntries(k, q, kind))
  {
    var es := WaitEntries(k, q, kind);
    forall i, j | 0 <= i < j < |es| && es[i].In? && es[j].In? ensures es[i].order != es[j].order {
      assert StampsApart(k.tasks[i], k.tasks[j]);
    }
  }

  lemma NextRunnableIsBest(k: Kernel, i: nat)
    requires DistinctOrders(ReadyEntries(k))
    ensures NextRunnable(k) == Some(i) <==> IsBest(ReadyEntries(k), i)
    ensures NextRunnable(k) == Select(ReadyEntries(k))
  {
    var es := ReadyEntries(k);
    var r := NextRunnable(k);
    if r.Some? {
      forall j | 0 <= j < |es| && j != r.value ensures Beats(es[r.value], es[j]) { ScanCovers(k, j); }
      SelectIsBest(es, r.value);
    } else {
      forall j | 0 <= j < |es| ensures es[j].Out? { ScanCovers(k, j); }
    }
    SelectIsBest(es, i);
  }

  /** In every reachable state a free turn goes to the one ready task that comes before all other ready tasks - higher
      priority, or equal priority and queued up earlier - whatever order the tasks are scanned in; it stays free only
      if no task is ready. */
  lemma DispatchPicksTheBest(start: Kernel, run: seq<Step>, permuted: seq<Entry>, place: seq<nat>, spot: seq<nat>)
    requires Initial(start) && IsRun(start, run) && After(start, run).running == None
    requires Permutes(ReadyEntries(After(start, run)), permuted, place, spot)
    ensures var k := After(start, run);
            && (forall i: nat :: Next(k, DoDispatch).running == Some(i) <==> RunsNext(k, i))
            && (Next(k, DoDispatch).running == None <==> forall i: nat :: !IsReady(k, i))
            && Next(k, DoDispatch).running ==
               (if Select(permuted).Some? then Some(place[Select(permuted).value]) else None)
  {
    Reachable(start, run);
    hide KernelOk, After, IsRun, Dispatch, RunsNext, Next, IsReady, ReadyTask;
    var k := After(start, run);
    ReadyStampsDistinct(k);
    DispatchIsNext(k);
    FreeTurnGoesToBest(k, permuted, place, spot);
    forall i: nat ensures RunsNext(k, i) <==> IsBest(ReadyEntries(k), i) { RunsNextIff(k, i); }
  }

  lemma DispatchIsNext(k: Kernel)
    ensures Next(k, DoDispatch) == Dispatch(k)
    ensures forall i: nat :: IsReady(k, i) <==> i < |k.tasks| && ReadyTask(k.stopping, k.tasks[i])
  {
    hide Dispatch;
  }

  lemma FreeTurnGoesToBest(k: Kernel, permuted: seq<Entry>, place: seq<nat>, spot: seq<nat>)
    requires DistinctOrders(ReadyEntries(k)) && k.running == None && Permutes(ReadyEntries(k), permuted, place, spot)
    ensures forall i: nat :: Dispatch(k).running == Some(i) <==> IsBest(ReadyEntries(k), i)
    ensures Dispatch(k).running == None <==> forall i :: 0 <= i < |k.tasks| ==> !ReadyTask(k.stopping, k.tasks[i])
    ensures Dispatch(k).running == if Select(permuted).Some? then Some(place[Select(permuted).value]) else None
  {
    hide NextRunnable;
    forall i: nat ensures Dispatch(k).running == Some(i) <==> IsBest(ReadyEntries(k), i) {
      NextRunnableIsBest(k, i);
    }
    assert forall i :: 0 <= i < |k.tasks| ==> ReadyEntries(k)[i] == ReadyEntry(k.stopping, k.tasks[i]);
    NextRunnableIsBest(k, 0);
    SelectIgnoresScanOrder(ReadyEntries(k), permuted, place, spot);
  }

  /** The same for the waiter a queue wakes: the highest priority, then the one blocked longest. */
  lemma QueueWakesTheBest(start: Kernel, run: seq<Step>, q: nat, kind: WaitKind, i: nat)
    requires Initial(start) && IsRun(start, run)
    ensures var k := After(start, run);
            && (QueueWaiter(k, q, kind) == Some(i) <==> WokenNext(k, q, kind, i))
            && (QueueWaiter(k, q, kind) == None <==> forall j: nat :: !WaitsFor(k, q, kind, j))
  {
    Reachable(start, run);
    hide KernelOk, After, IsRun, QueueWaiter;
    WaiterIs(After(start, run), q, kind, i);
  }

  lemma WaiterIs(k: Kernel, q: nat, kind: WaitKind, i: nat)
    requires KernelOk(k)
    ensures QueueWaiter(k, q, kind) == Some(i) <==> WokenNext(k, q, kind, i)
    ensures QueueWaiter(k, q, kind) == None <==> forall j: nat :: !WaitsFor(k, q, kind, j)
  {
    WaitStampsDistinct(k, q, kind);
    hide KernelOk, WokenNext;
    SelectIsBest(WaitEntries(k, q, kind), i);
    WokenNextIff(k, q, kind, i);
    var es := WaitEntries(k, q, kind);
    assert forall j :: 0 <= j < |es| ==> (es[j].In? <==> WaitsFor(k, q, kind, j));
  }

  // ----- after a preemption point

  /** The turn is held by a task no ready task outranks, or nobody is ready. */
  ghost predicate NoneAhead(k: Kernel) {
    forall i: nat {:trigger IsReady(k, i)} :: IsReady(k, i) ==>
      && k.running.Some? && k.running.value < |k.tasks|
      && k.tasks[i].priority <= k.tasks[k.running.value].priority
  }

  /** Task c passed a preemption point: it keeps the turn, or has given it to a task of strictly higher priority and
      queued up anew, with a stamp not below `stamp`. */
  ghost predicate Passed(r: Kernel, c: nat, stamp: nat) {
    && NoneAhead(r)
    && (r.running == Some(c)
        || (c < |r.tasks| && r.running.Some? && r.running.value < |r.tasks| && r.tasks[c].readyOrder >= stamp
            && r.tasks[r.running.value].priority > r.tasks[c].priority))
  }

  /** The step is one of task c's that changes something others may wait for, and so ends with a preemption point. */
  predicate Preempts(k: Kernel, s: Step, c: nat) {
    && c < |k.tasks|
    && match s
       case DoSend(th, q, _, _, _) =>
         && th == Worker(c) && q < |k.queues| && !StoppingThread(k, th)
         && !k.queues[q].deleted && |k.queues[q].items| < k.queues[q].capacity
       case DoReceive(th, q, _) =>
         th == Worker(c) && q < |k.queues| && !StoppingThread(k, th) && !k.queues[q].deleted && k.queues[q].items != []
       case DoResetQueue(th, q) => th == Worker(c) && q < |k.queues| && !StoppingThread(k, th) && !k.queues[q].deleted
       case DoResume(d) =>
         && d == c && k.tasks[c].pc.Wait? && !StoppingThread(k, Worker(c)) && k.tasks[c].wait.result == Ready
         && (match k.tasks[c].pc.op
             case SendOp(q, _, _) => q < |k.queues| && !k.queues[q].deleted
             case ReceiveOp(q) => q < |k.queues| && !k.queues[q].deleted && k.queues[q].items != []
             case _ => false)
       case DoGive(th, _) => th == Worker(c)
       case DoUnlock(th, _) => th == Worker(c)
       case DoCreate(th, _, _) => th == Worker(c)
       case _ => false
  }

  /** After every run from boot: when a turn holder sends, receives, resumes such a call, resets a queue, gives a
      notification, unlocks a mutex or creates a task, then whoever holds the turn afterwards, no ready task outranks
      it; and the holder loses the turn only to a strictly higher priority, and then queues behind everybody. */
  lemma PreemptionLeavesNoneAhead(start: Kernel, run: seq<Step>, s: Step, c: nat)
    requires Initial(start) && IsRun(start, run)
    requires Enabled(After(start, run), s) && Preempts(After(start, run), s, c) && After(start, run).running == Some(c)
    ensures Passed(Next(After(start, run), s), c, After(start, run).nextReady)
  {
    Reachable(start, run);
    hide KernelOk, Initial, Enabled, Preempts, Passed, Next;
    StepLeads(After(start, run), s, c);
  }

  lemma StepLeads(k: Kernel, s: Step, c: nat)
    requires KernelOk(k) && Enabled(k, s) && Preempts(k, s, c) && k.running == Some(c)
    ensures Passed(Next(k, s), c, k.nextReady)
  {
    Facts(k, c);
    hide KernelOk, Passed, TaskOk, InUse, Publish, Preempt, Push, Pop, ReleaseMutex, Dispatch, Awaken;
    if s.DoSend? || s.DoReceive? || s.DoResetQueue? {
      QueueStepLeads(k, s, c);
    } else if s.DoResume? {
      ResumeLeads(k, s, c);
    } else if s.DoGive? {
      GiveLeads(k, s, c);
    } else if s.DoUnlock? {
      UnlockLeads(k, s, c);
    } else {
      CreateLeads(k, s, c);
    }
  }

  /** The holder of the turn, and not about to lose it. */
  predicate Holds(k: Kernel, c: nat) {
    && c < |k.tasks| && k.running == Some(c) && (k.stopping || ReadyTask(k.stopping, k.tasks[c]))
  }

  lemma HolderHolds(k: Kernel, c: nat)
    requires KernelOk(k) && k.running == Some(c)
    ensures Holds(k, c)
  {
    assert c < |k.tasks|;
    Facts(k, c);
  }

  lemma PreemptLeads(k: Kernel, c: nat, use: Option<nat>, stamp: nat)
    requires Holds(k, c) && stamp <= k.nextReady
    ensures Passed(Preempt(k, Worker(c), use), c, stamp)
  {
    var r := Preempt(k, Worker(c), use);
    hide NextRunnable;
    forall i: nat | IsReady(r, i)
      ensures r.running.Some? && r.running.value < |r.tasks| && r.tasks[i].priority <= r.tasks[r.running.value].priority
    {
      if MustPreempt(k, Worker(c)) {
        HolderLeads(SwitchOut(k, c, use), i);
      } else {
        ScanCovers(k, i);
        ScanCovers(k, c);
      }
    }
    if MustPreempt(k, Worker(c)) {
      var next := NextRunnable(k).value;
      assert IsReady(k, next) && IsReady(r, next);
    }
  }

  lemma PublishLeads(k: Kernel, c: nat, q: nat, kind: WaitKind, stamp: nat)
    requires Holds(k, c) && !k.tasks[c].blocked && stamp <= k.nextReady
    ensures Passed(Publish(k, Worker(c), q, kind), c, stamp)
  {
    var released := ReleaseQueueWaiter(k, q, kind);
    assert Holds(Dispatch(released), c);
    hide ReleaseQueueWaiter, Passed, Preempt;
    PreemptLeads(Dispatch(released), c, Some(q), stamp);
  }

  lemma QueueStepLeads(k: Kernel, s: Step, c: nat)
    requires KernelOk(k) && Enabled(k, s) && Preempts(k, s, c) && k.running == Some(c)
    requires s.DoSend? || s.DoReceive? || s.DoResetQueue?
    ensures Passed(Next(k, s), c, k.nextReady)
  {
    HolderHolds(k, c);
    Facts(k, c);
    hide KernelOk, Passed, Publish;
    match s
    case DoSend(_, q, item, front, _) => PublishLeads(Push(k, q, item, front), c, q, Receiving, k.nextReady);
    case DoReceive(_, q, _) => PublishLeads(Pop(k, q), c, q, Sending, k.nextReady);
    case DoResetQueue(_, q) =>
      var x := k.queues[q];
      PublishLeads(SetQueue(k, q, x.(items := [], discarded := x.discarded + x.items)), c, q, Sending, k.nextReady);
  }

  lemma ResumeLeads(k: Kernel, s: Step, c: nat)
    requires KernelOk(k) && s.DoResume? && Enabled(k, s) && Preempts(k, s, c) && k.running == Some(c)
    ensures Passed(Next(k, s), c, k.nextReady)
  {
    var woken := Dispatch(Awaken(k, c));
    AwokenHolds(k, c);
    hide KernelOk, Passed, Publish, Awaken, Dispatch;
    match k.tasks[c].pc.op
    case SendOp(q, item, front) => PublishLeads(Push(woken, q, item, front), c, q, Receiving, k.nextReady);
    case ReceiveOp(q) => PublishLeads(Pop(woken, q), c, q, Sending, k.nextReady);
  }

  lemma AwokenHolds(k: Kernel, c: nat)
    requires KernelOk(k) && k.running == Some(c) && c < |k.tasks| && k.tasks[c].pc.Wait?
    ensures Holds(Dispatch(Awaken(k, c)), c) && !Dispatch(Awaken(k, c)).tasks[c].blocked
    ensures |Dispatch(Awaken(k, c)).queues| == |k.queues|
    ensures forall q :: 0 <= q < |k.queues| ==>
              && Dispatch(Awaken(k, c)).queues[q].deleted == k.queues[q].deleted
              && Dispatch(Awaken(k, c)).queues[q].items == k.queues[q].items
  {
    HolderHolds(k, c);
    Facts(k, c);
  }

  lemma GiveLeads(k: Kernel, s: Step, c: nat)
    requires KernelOk(k) && s.DoGive? && Enabled(k, s) && Preempts(k, s, c) && k.running == Some(c)
    ensures Passed(Next(k, s), c, k.nextReady)
  {
    HolderHolds(k, c);
    Facts(k, c);
    var given := SetTask(k, s.target, GivenTask(k.tasks[s.target]));
    assert Holds(Dispatch(given), c);
    hide KernelOk, Passed, Preempt;
    PreemptLeads(Dispatch(given), c, None, k.nextReady);
  }

  lemma UnlockLeads(k: Kernel, s: Step, c: nat)
    requires KernelOk(k) && s.DoUnlock? && Enabled(k, s) && Preempts(k, s, c) && k.running == Some(c)
    ensures Passed(Next(k, s), c, k.nextReady)
  {
    HolderHolds(k, c);
    ReleasedMutexHolds(k, s.mutex, c);
    hide KernelOk, Passed, Preempt, ReleaseMutex;
    PreemptLeads(ReleaseMutex(k, s.mutex), c, None, k.nextReady);
  }

  lemma ReleasedMutexHolds(k: Kernel, m: nat, c: nat)
    requires KernelOk(k) && m < |k.mutexes| && Holds(k, c) && k.tasks[c].pc == Code
    ensures Holds(ReleaseMutex(k, m), c)
  {
    var chosen := Select(LockEntries(k, m));
    if chosen.Some? {
      var w := k.mutexes[m].waiters[chosen.value];
      assert MutexOk(k, m) && LinkOk(k, m, w);
    }
  }

  lemma CreateLeads(k: Kernel, s: Step, c: nat)
    requires KernelOk(k) && s.DoCreate? && Enabled(k, s) && Preempts(k, s, c) && k.running == Some(c)
    ensures Passed(Next(k, s), c, k.nextReady)
  {
    HolderHolds(k, c);
    hide KernelOk, Passed, Preempt;
    if k.stopping {
      NobodyReady(k, c, k.nextReady);
    } else {
      MadeHolds(k, c, s.priority, s.bytes);
      PreemptLeads(WithNewTask(k, s.priority, s.bytes), c, None, k.nextReady);
    }
  }

  lemma MadeHolds(k: Kernel, c: nat, priority: nat, bytes: nat)
    requires Holds(k, c)
    ensures Holds(WithNewTask(k, priority, bytes), c)
  {
  }

  lemma NobodyReady(k: Kernel, c: nat, stamp: nat)
    requires k.stopping && k.running == Some(c)
    ensures Passed(k, c, stamp)
  {
  }

  lemma HolderLeads(k: Kernel, i: nat)
    requires k.running == None && i < |k.tasks|
    ensures var r := Dispatch(k);
            ReadyTask(k.stopping, k.tasks[i]) ==>
              r.running.Some? && r.running.value < |k.tasks| && ReadyTask(k.stopping, k.tasks[r.running.value])
              && k.tasks[i].priority <= k.tasks[r.running.value].priority
  {
    hide NextRunnable;
    ScanCovers(k, i);
  }

  /** A zero-tick delay really yields: the turn does not come straight back while a peer of the same or a higher
      priority is ready. */
  lemma YieldReachesPeers(k: Kernel, c: nat, i: nat)
    requires KernelOk(k) && Enabled(k, DoDelay(c, 0)) && k.running == Some(c)
    requires i < |k.tasks| && i != c && IsReady(k, i) && k.tasks[i].priority >= k.tasks[c].priority
    ensures Delay(k, c, 0).running.Some? && Delay(k, c, 0).running != Some(c)
  {
    Facts(k, c);
    assert StampsBelow(k.tasks[i], k.nextReady) && Live(k.tasks[i]);
    hide KernelOk, NextRunnable;
    var queued := QueueUp(GiveUpTurn(k, c), c, Turn(None));
    ScanCovers(queued, i);
  }
}
