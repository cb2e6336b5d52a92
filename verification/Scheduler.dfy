/** The kernel as it is written: one object whose fields every locked region updates step by step. Each method is
    proved to turn the state into what the region's function says, so what is proved about the functions, about every
    step and about every run holds of this object. */
module Scheduler {
  import opened Selection
  import opened KernelState
  import opened KernelSteps
  import opened KernelMachine
  import opened KernelEffects

  /** What a blocked call hands back once it resumes: nothing if its task has to unwind, else success, the item, the
      count found, or just the end of a delay. */
  datatype Outcome = Unwound | Sent(done: bool) | Got(item: Option<Item>) | Counted(count: nat) | Waited

  /** What the result of a resumed call says about the state before and after it: a send that reports success put its
      item in, a receive that returns an item took that one out, a take that returns a count took it, a task that
      unwinds did none of these, and the others left everything alone. */
  predicate Reports(k: Kernel, r: Kernel, c: nat, outcome: Outcome)
    requires c < |k.tasks| && k.tasks[c].pc.Wait?
  {
    var t := k.tasks[c];
    && c < |r.tasks| && |r.queues| == |k.queues|
    && (outcome.Unwound? <==> StoppingThread(k, Worker(c)))
    && (outcome.Unwound? ==> AllKept(k, r) && r.tasks[c].notes == t.notes)
    && (!outcome.Unwound? ==>
          match t.pc.op
          case SendOp(q, item, front) =>
            && outcome.Sent? && q < |k.queues|
            && (outcome.done <==> t.wait.result == Ready && !k.queues[q].deleted)
            && (outcome.done <==> r.queues[q].accepted == k.queues[q].accepted + [item])
            && (if outcome.done then Took(k.queues[q], r.queues[q], item, front) else AllKept(k, r))
          case ReceiveOp(q) =>
            && outcome.Got? && q < |k.queues|
            && (outcome.item.Some? <==> t.wait.result == Ready && !k.queues[q].deleted && k.queues[q].items != [])
            && (if outcome.item.Some? then
                  && k.queues[q].items == [outcome.item.value] + r.queues[q].items
                  && r.queues[q].received == k.queues[q].received + [outcome.item.value]
                else AllKept(k, r))
          case TakeOp(clear) =>
            && outcome.Counted? && outcome.count == t.notes.count
            && (if outcome.count > 0 then TookNotes(t.notes, r.tasks[c].notes, clear) else r.tasks[c].notes == t.notes)
          case DelayOp => outcome.Waited? && AllKept(k, r))
  }

  /** The result a call found is the one its state calls for. */
  predicate Found(k: Kernel, c: nat, outcome: Outcome)
    requires c < |k.tasks| && k.tasks[c].pc.Wait?
  {
    var t := k.tasks[c];
    if StoppingThread(k, Worker(c)) then outcome == Unwound
    else match t.pc.op
      case SendOp(q, _, _) => q < |k.queues| && outcome == Sent(t.wait.result == Ready && !k.queues[q].deleted)
      case ReceiveOp(q) =>
        && q < |k.queues|
        && outcome == if t.wait.result == Ready && !k.queues[q].deleted
           && k.queues[q].items != [] then Got(Some(k.queues[q].items[0]))
                      else Got(None)
      case TakeOp(_) => outcome == Counted(t.notes.count)
      case DelayOp => outcome == Waited
  }

  lemma ReportsRight(k: Kernel, r: Kernel, c: nat, outcome: Outcome)
    requires c < |k.tasks| && k.tasks[c].pc.Wait? && Resumed(k, r, c) && Found(k, c, outcome)
    ensures Reports(k, r, c, outcome)
  {
    if !StoppingThread(k, Worker(c)) && k.tasks[c].pc.op.SendOp? {
      var q := k.tasks[c].pc.op.queue;
      assert |k.queues[q].accepted + [k.tasks[c].pc.op.item]| == |k.queues[q].accepted| + 1;
    }
  }

  class Scheduler {
    var tasks: seq<Task>      // tasks[0] is the timer service record, tasks[1..] the registry
    var hosts: seq<Pc>
    var queues: seq<Queue>
    var mutexes: seq<Mutex>
    var running: Option<nat>
    var nextReady: nat
    var micros: nat
    var stopping: bool
    var timerExecuting: bool

    function View(): Kernel
      reads this
    {
      Kernel(tasks, hosts, queues, mutexes, running, nextReady, micros, stopping, timerExecuting)
    }

    // ----- dispatch

    /** nextRunnableTaskLocked: the registry is scanned in order, the timer service record last. */
    method NextRunnableTask() returns (next: Option<nat>)
      ensures next == NextRunnable(View())
    {
      ghost var es := ScanEntries(View());
      var scanned: Option<nat> := None;
      for p := 0 to |tasks|
        invariant scanned == Select(es[..p])
      {
        var candidate := tasks[ScanIndex(View(), p)];
        if ReadyTask(stopping, candidate) {
          if scanned.None? {
            scanned := Some(p);
          } else {
            var kept := tasks[ScanIndex(View(), scanned.value)];
            if candidate.priority > kept.priority
               || (candidate.priority == kept.priority && candidate.readyOrder < kept.readyOrder)
            {
              scanned := Some(p);
            }
          }
        }
        assert es[..p + 1][..p] == es[..p];
        assert scanned == Select(es[..p + 1]) by { ScanStep(es, p, ReadyEntry(stopping, candidate)); }
      }
      assert es[..|tasks|] == es;
      next := if scanned.Some? then Some(ScanIndex(View(), scanned.value)) else None;
    }

    /** dispatchNextLocked. */
    method DispatchNext()
      modifies this
      ensures View() == Dispatch(old(View()))
    {
      if running.Some? { return; }
      running := NextRunnableTask();
    }

    method EnterQueue(use: Option<nat>)
      modifies this
      ensures View() == EnterUse(old(View()), use)
    {
      if use.Some? && use.value < |queues| {
        queues := queues[use.value := queues[use.value].(users := queues[use.value].users + 1)];
      }
    }

    method LeaveQueue(use: Option<nat>)
      modifies this
      ensures View() == LeaveUse(old(View()), use)
    {
      if use.Some? && use.value < |queues| && queues[use.value].users > 0 {
        queues := queues[use.value := queues[use.value].(users := queues[use.value].users - 1)];
      }
    }

    /** preemptForHigherPriorityLocked, up to the wait for the next turn. */
    method PreemptForHigherPriority(th: Thread, use: Option<nat>)
      requires IsThread(View(), th)
      modifies this
      ensures View() == Preempt(old(View()), th, use)
    {
      if th.Host? || running != Some(th.id) { return; }
      var c := th.id;
      var next := NextRunnableTask();
      if next.None? || next.value == c || tasks[next.value].priority <= tasks[c].priority { return; }
      tasks := tasks[c := tasks[c].(readyOrder := nextReady, parked := false, pc := Turn(use))];
      nextReady := nextReady + 1;
      running := None;
      EnterQueue(use);
      DispatchNext();
    }

    // ----- blocking and releasing

    /** setTaskWaitLocked, then setTaskBlockedLocked(true) before it dispatches. */
    method BlockCurrent(c: nat, kind: WaitKind, queue: Option<nat>, timed: bool, ticks: nat, pc: Pc)
      requires c < |tasks|
      modifies this
      ensures View() == BlockOn(old(View()), c, kind, queue, timed, ticks, pc)
    {
      var deadline := if timed then (Clock(micros) + ticks) % TICKS_WRAP else 0;
      tasks := tasks[c := tasks[c].(wait := WaitState(kind, NoResult, queue, timed, deadline, Millis(micros) + ticks))];
      tasks := tasks[c := tasks[c].(parked := false, blocked := true, runnable := false,
                                    waitOrder := nextReady, pc := pc)];
      if running == Some(c) { running := None; }
      nextReady := nextReady + 1;
    }

    /** setTaskBlockedLocked(false) of a task nobody released. */
    method UnblockCurrent(c: nat, pc: Pc)
      requires c < |tasks|
      modifies this
      ensures View() == Unblock(old(View()), c, pc)
    {
      tasks := tasks[c := tasks[c].(blocked := false, runnable := true, readyOrder := tasks[c].waitOrder,
                                    wait := Awake(tasks[c].wait, NoResult), pc := pc)];
    }

    /** releaseTaskLocked. */
    method ReleaseTask(i: nat, result: WaitResult)
      requires i < |tasks|
      modifies this
      ensures View() == Release(old(View()), i, result)
    {
      tasks := tasks[i := tasks[i].(blocked := false, runnable := true, readyOrder := tasks[i].waitOrder,
                                    wait := Awake(tasks[i].wait, result))];
    }

    /** releaseQueueWaiterLocked: among the registry tasks blocked on the queue, the best one is released. */
    method ReleaseQueueWaiterLocked(q: nat, kind: WaitKind)
      modifies this
      ensures View() == ReleaseQueueWaiter(old(View()), q, kind)
    {
      ghost var es := WaitEntries(View(), q, kind);
      var selected: Option<nat> := None;
      for i := 0 to |tasks|
        invariant selected == Select(es[..i]) && View() == old(View())
      {
        ghost var entry := if i == 0 then Out else WaitEntry(tasks[i], q, kind);
        if i > 0 && tasks[i].blocked && tasks[i].wait.queue == Some(q) && tasks[i].wait.kind == kind {
          if selected.None? || tasks[i].priority > tasks[selected.value].priority
             || (tasks[i].priority == tasks[selected.value].priority
                 && tasks[i].waitOrder < tasks[selected.value].waitOrder)
          {
            selected := Some(i);
          }
        }
        assert es[..i + 1][..i] == es[..i];
        assert selected == Select(es[..i + 1]) by { ScanStep(es, i, entry); }
      }
      assert es[..|tasks|] == es;
      if selected.Some? { ReleaseTask(selected.value, Ready); }
    }

    method PublishChange(th: Thread, q: nat, kind: WaitKind)
      requires IsThread(View(), th)
      modifies this
      ensures View() == Publish(old(View()), th, q, kind)
    {
      ReleaseQueueWaiterLocked(q, kind);
      DispatchNext();
      PreemptForHigherPriority(th, Some(q));
    }

    /** releaseDueWaitersLocked: one pass over the registry. */
    method ReleaseDueWaiters()
      modifies this
      ensures View() == ReleaseDue(old(View()))
    {
      var now := Clock(micros);
      ghost var before := View();
      for i := 0 to |tasks|
        invariant |tasks| == |before.tasks| && View() == before.(tasks := tasks)
        invariant forall j :: 0 <= j < i ==>
                    tasks[j] == if j > 0 && IsOverdue(now, before.tasks[j]) then ReleasedTask(before.tasks[j], Timeout)
                                else before.tasks[j]
        invariant forall j :: i <= j < |tasks| ==> tasks[j] == before.tasks[j]
      {
        if i > 0 && tasks[i].blocked && tasks[i].wait.timed && DeadlineReached(now, tasks[i].wait.deadline) {
          ReleaseTask(i, Timeout);
        }
      }
      assert tasks == ReleaseDue(before).tasks;
    }

    /** releaseAllQueueWaitersLocked. */
    method ReleaseAllQueueWaiters(q: nat)
      modifies this
      ensures View() == Dispatch(ReleaseAllOn(old(View()), q))
    {
      ghost var before := View();
      for i := 0 to |tasks|
        invariant |tasks| == |before.tasks| && View() == before.(tasks := tasks)
        invariant forall j :: 0 <= j < i ==>
                    tasks[j] == if j > 0 && before.tasks[j].blocked && before.tasks[j].wait.queue == Some(q)
                                then ReleasedTask(before.tasks[j], Cancelled) else before.tasks[j]
        invariant forall j :: i <= j < |tasks| ==> tasks[j] == before.tasks[j]
      {
        if i > 0 && tasks[i].blocked && tasks[i].wait.queue == Some(q) { ReleaseTask(i, Cancelled); }
      }
      assert tasks == ReleaseAllOn(before, q).tasks;
      DispatchNext();
    }

    /** waitUntilLocked of a task whose condition does not hold, up to the condition wait. */
    method WaitUntil(c: nat, op: Op, ticks: nat)
      requires c < |tasks|
      modifies this
      ensures View() == WaitOn(old(View()), c, op, ticks)
    {
      if stopping || tasks[c].stopping {
        BlockCurrent(c, KindOf(op), QueueOf(op), op.DelayOp? || ticks != MAX_DELAY, ticks, Wait(op));
        UnblockCurrent(c, Code);
      } else {
        BlockCurrent(c, KindOf(op), QueueOf(op), op.DelayOp? || ticks != MAX_DELAY, ticks, Wait(op));
        EnterQueue(QueueOf(op));
      }
      DispatchNext();
    }

    // ----- queues

    method PushItem(q: nat, item: Item, front: bool)
      requires q < |queues|
      modifies this
      ensures View() == Push(old(View()), q, item, front)
    {
      var x := queues[q];
      if front { x := x.(items := [item] + x.items); } else { x := x.(items := x.items + [item]); }
      queues := queues[q := x.(accepted := x.accepted + [item], fronted := x.fronted || front)];
    }

    method PopItem(q: nat) returns (item: Item)
      requires q < |queues| && queues[q].items != []
      modifies this
      ensures item == old(queues[q].items[0]) && View() == Pop(old(View()), q)
    {
      var x := queues[q];
      item := x.items[0];
      queues := queues[q := x.(items := x.items[1..], received := x.received + [item])];
    }

    /** queueSend up to its first wait. */
    method QueueSend(th: Thread, q: nat, item: Item, front: bool, ticks: nat) returns (sent: bool)
      requires IsThread(View(), th) && q < |queues|
      modifies this
      ensures View() == Send(old(View()), th, q, item, front, ticks)
      ensures sent <==> !StoppingThread(old(View()), th) && !old(queues)[q].deleted
                        && |old(queues)[q].items| < old(queues)[q].capacity
      ensures sent ==> |queues| == |old(queues)| && Took(old(queues)[q], queues[q], item, front)
    {
      var ready := queues[q].deleted || |queues[q].items| < queues[q].capacity;
      if !ready && ticks != 0 && th.Worker? {
        WaitUntil(th.id, SendOp(q, item, front), ticks);
        return false;
      }
      if StoppingThread(View(), th) || queues[q].deleted || !ready { return false; }
      PushTakes(View(), th, q, item, front);
      PushItem(q, item, front);
      PublishChange(th, q, Receiving);
      return true;
    }

    /** xQueueReceive up to its first wait. */
    method QueueReceive(th: Thread, q: nat, ticks: nat) returns (item: Option<Item>)
      requires IsThread(View(), th) && q < |queues|
      modifies this
      ensures View() == Receive(old(View()), th, q, ticks)
      ensures item == if StoppingThread(old(View()), th) || old(queues)[q].deleted || old(queues)[q].items == []
                      then None else Some(old(queues)[q].items[0])
      ensures item.Some? ==> |queues| == |old(queues)| && Gave(old(queues)[q], queues[q])
    {
      var ready := queues[q].deleted || queues[q].items != [];
      if !ready && ticks != 0 && th.Worker? {
        WaitUntil(th.id, ReceiveOp(q), ticks);
        return None;
      }
      if StoppingThread(View(), th) || queues[q].deleted || !ready { return None; }
      PopGives(View(), th, q);
      var front := PopItem(q);
      PublishChange(th, q, Sending);
      return Some(front);
    }

    /** The end of a condition wait: the caller is out of it, out of the queue's call, and has the turn or is
        stopping. */
    method AwakenCaller(c: nat)
      requires c < |tasks| && tasks[c].pc.Wait?
      modifies this
      ensures View() == Dispatch(Awaken(old(View()), c))
      ensures |tasks| == |old(tasks)| && tasks[c].notes == old(tasks)[c].notes && AllKept(old(View()), View())
    {
      AwokenContents(View(), c);
      hide Dispatch;
      var op := tasks[c].pc.op;
      tasks := tasks[c := AwakeTask(tasks[c])];
      LeaveQueue(QueueOf(op));
      DispatchNext();
    }

    /** The rest of a blocked call: the wait ends, the stop checks run, and the operation completes or gives up. What it
        returns says what it did: a send that reports success put its item in, a receive that returns an item took that
        one out, a take that returns a count took it, and the others left everything alone. */
    method ResumeCall(c: nat) returns (outcome: Outcome)
      requires c < |tasks| && tasks[c].pc.Wait?
      requires QueueOf(tasks[c].pc.op).Some? ==> QueueOf(tasks[c].pc.op).value < |queues|
      modifies this
      ensures View() == Resume(old(View()), c)
      ensures Reports(old(View()), View(), c, outcome)
    {
      hide Publish, Dispatch, Awaken, Resumed, Reports;
      ghost var before := View();
      ResumedBy(before, c);
      var op := tasks[c].pc.op;
      var available := tasks[c].wait.result == Ready;
      outcome := Unwound;
      var stops := StoppingThread(View(), Worker(c));
      AwakenCaller(c);
      if !stops {
        match op {
          case SendOp(q, item, front) =>
            outcome := Sent(false);
            if !queues[q].deleted && available {
              PushItem(q, item, front);
              PublishChange(Worker(c), q, Receiving);
              outcome := Sent(true);
            }
          case ReceiveOp(q) =>
            outcome := Got(None);
            if !queues[q].deleted && available && queues[q].items != [] {
              var item := PopItem(q);
              PublishChange(Worker(c), q, Sending);
              outcome := Got(Some(item));
            }
          case TakeOp(clear) =>
            outcome := Counted(tasks[c].notes.count);
            if tasks[c].notes.count != 0 { TakeCount(c, clear); }
          case DelayOp => outcome := Waited;
        }
      }
      ReportsRight(before, View(), c, outcome);
    }

    method QueueReset(th: Thread, q: nat) returns (done: bool)
      requires IsThread(View(), th) && q < |queues|
      modifies this
      ensures View() == ResetQueue(old(View()), th, q)
      ensures done <==> !(th.Worker? && StoppingThread(old(View()), th)) && !old(queues)[q].deleted
    {
      if queues[q].deleted || (th.Worker? && StoppingThread(View(), th)) { return false; }
      queues := queues[q := queues[q].(items := [], discarded := queues[q].discarded + queues[q].items)];
      PublishChange(th, q, Sending);
      return true;
    }

    /** vQueueDelete up to its wait for the queue's users. */
    method QueueDelete(th: Thread, q: nat)
      requires IsThread(View(), th) && q < |queues|
      modifies this
      ensures View() == DeleteQueue(old(View()), th, q)
    {
      if queues[q].deleted { return; }
      var x := queues[q];
      queues := queues[q := x.(deleted := true, items := [], discarded := x.discarded + x.items,
                               deleter := Some(th), freed := x.users == 0)];
      ReleaseAllQueueWaiters(q);
      if x.users == 0 { return; }
      match th {
        case Host(n) => hosts := hosts[n := Drain(q)];
        case Worker(c) =>
          if running == Some(c) {
            tasks := tasks[c := tasks[c].(runnable := false, pc := Drain(q))];
            running := None;
            DispatchNext();
          } else {
            tasks := tasks[c := tasks[c].(pc := Drain(q))];
          }
      }
    }

    method Move(th: Thread, pc: Pc)
      requires IsThread(View(), th)
      modifies this
      ensures View() == SetPc(old(View()), th, pc)
    {
      match th
      case Worker(i) => tasks := tasks[i := tasks[i].(pc := pc)];
      case Host(n) => hosts := hosts[n := pc];
    }

    method RequeueTask(c: nat, pc: Pc)
      requires c < |tasks|
      modifies this
      ensures View() == Requeue(old(View()), c, pc)
    {
      tasks := tasks[c := tasks[c].(runnable := true, readyOrder := nextReady, pc := pc)];
      nextReady := nextReady + 1;
      DispatchNext();
      tasks := tasks[c := tasks[c].(parked := false)];
      DispatchNext();
    }

    /** The queue has no users left, or the scheduler stops; a task queues up for its turn again. */
    method DrainEnded(th: Thread)
      requires IsThread(View(), th) && PcOf(View(), th).Drain? && PcOf(View(), th).queue < |queues|
      modifies this
      ensures View() == EndDrain(old(View()), th)
    {
      var q := PcOf(View(), th).queue;
      var next := DrainTurn(q, queues[q].users == 0);
      if th.Worker? && !stopping { RequeueTask(th.id, next); } else { Move(th, next); }
    }

    method ReleaseQueueMemory(th: Thread)
      requires IsThread(View(), th) && PcOf(View(), th).DrainTurn? && PcOf(View(), th).queue < |queues|
      modifies this
      ensures View() == FreeQueue(old(View()), th)
    {
      var pc := PcOf(View(), th);
      Move(th, Code);
      if pc.drained { queues := queues[pc.queue := queues[pc.queue].(freed := true)]; }
    }

    // ----- notifications and delays

    /** xTaskNotifyGive. */
    method NotifyGive(th: Thread, target: nat)
      requires IsThread(View(), th) && target < |tasks|
      modifies this
      ensures View() == Give(old(View()), th, target)
    {
      tasks := tasks[target := tasks[target].(notes := OneMore(tasks[target].notes))];
      if tasks[target].blocked && tasks[target].wait.kind == Notified { ReleaseTask(target, Ready); }
      assert tasks == old(tasks)[target := GivenTask(old(tasks)[target])];
      DispatchNext();
      PreemptForHigherPriority(th, None);
    }

    method TakeCount(c: nat, clear: bool)
      requires c < |tasks| && tasks[c].notes.count > 0
      modifies this
      ensures View() == Consume(old(View()), c, clear)
    {
      var n := tasks[c].notes;
      if clear {
        tasks := tasks[c := tasks[c].(notes := n.(count := 0, cleared := n.cleared + n.count))];
      } else {
        tasks := tasks[c := tasks[c].(notes := n.(count := n.count - 1, singles := n.singles + 1))];
      }
    }

    /** ulTaskNotifyTake up to its first wait: the count it found, before clearing or decrementing it. */
    method NotifyTake(c: nat, clear: bool, ticks: nat) returns (count: nat)
      requires c < |tasks|
      modifies this
      ensures View() == Take(old(View()), c, clear, ticks)
      ensures count == if StoppingThread(old(View()), Worker(c)) then 0 else old(tasks)[c].notes.count
      ensures c < |tasks| && (if count > 0 then TookNotes(old(tasks)[c].notes, tasks[c].notes, clear)
                              else tasks[c].notes == old(tasks)[c].notes)
    {
      count := 0;
      if tasks[c].notes.count == 0 && ticks != 0 {
        WaitUntil(c, TakeOp(clear), ticks);
        return;
      }
      if StoppingThread(View(), Worker(c)) || tasks[c].notes.count == 0 { return; }
      count := tasks[c].notes.count;
      TakeCount(c, clear);
    }

    /** vTaskDelay of a scheduler task. */
    method TaskDelay(c: nat, ticks: nat)
      requires c < |tasks|
      modifies this
      ensures View() == Delay(old(View()), c, ticks)
    {
      if ticks == 0 {
        if running == Some(c) { running := None; }
        RequeueTask(c, Turn(None));
        return;
      }
      var stops := StoppingThread(View(), Worker(c));
      BlockCurrent(c, Delaying, None, true, ticks, Wait(DelayOp));
      if stops {
        UnblockCurrent(c, Turn(None));
        DispatchNext();
        return;
      }
      DispatchNext();
      if DeadlineReached(Clock(micros), Clock(micros) + ticks) {
        UnblockCurrent(c, Turn(None));
        DispatchNext();
      }
    }

    // ----- the scheduler-visible mutex

    /** The walk of unlinkWaiterLocked: the list without the thread's entry. */
    static method WalkTo(ws: seq<Waiter>, th: Thread) returns (rest: seq<Waiter>)
      ensures rest == Unlinked(ws, th)
    {
      hide Unlinked;
      WalkStep(ws, 0, th);
      var link := 0;
      while link < |ws| && ws[link].thread != th
        invariant 0 <= link <= |ws|
        invariant Unlinked(ws, th) == ws[..link] + Unlinked(ws[link..], th)
      {
        WalkStep(ws, link, th);
        link := link + 1;
      }
      WalkStep(ws, link, th);
      rest := if link < |ws| then ws[..link] + ws[link + 1..] else ws;
    }

    /** unlinkWaiterLocked. */
    method UnlinkWaiter(m: nat, th: Thread)
      requires m < |mutexes|
      modifies this
      ensures View() == SetMutex(old(View()), m, old(mutexes)[m].(waiters := Unlinked(old(mutexes)[m].waiters, th)))
    {
      var rest := WalkTo(mutexes[m].waiters, th);
      mutexes := mutexes[m := mutexes[m].(waiters := rest)];
    }

    /** The selection loop of releaseLocked. */
    method SelectWaiter(m: nat) returns (selected: Option<nat>)
      requires m < |mutexes|
      ensures selected == Select(LockEntries(View(), m))
    {
      var ws := mutexes[m].waiters;
      ghost var es := LockEntries(View(), m);
      selected := None;
      for j := 0 to |ws|
        invariant selected == Select(es[..j])
      {
        var w := ws[j];
        if w.thread.Host? || (w.thread.id < |tasks| && !tasks[w.thread.id].stopping) {
          var priority := if w.thread.Host? then 0 else tasks[w.thread.id].priority;
          if selected.None? {
            selected := Some(j);
          } else {
            var kept := ws[selected.value].thread;
            var selectedPriority := if kept.Host? then 0 else if kept.id < |tasks| then tasks[kept.id].priority else 0;
            if priority > selectedPriority || (priority == selectedPriority && w.order < ws[selected.value].order) {
              selected := Some(j);
            }
          }
        }
        assert es[..j + 1][..j] == es[..j];
        assert selected == Select(es[..j + 1]) by { ScanStep(es, j, LockEntry(View(), w)); }
      }
      assert es[..|ws|] == es;
    }

    /** SchedulerMutex::releaseLocked: ownership is reserved before the wake is published. */
    method ReleaseLocked(m: nat)
      requires m < |mutexes|
      modifies this
      ensures View() == ReleaseMutex(old(View()), m)
    {
      var selected := SelectWaiter(m);
      if selected.None? || !IsThread(View(), mutexes[m].waiters[selected.value].thread) {
        mutexes := mutexes[m := mutexes[m].(locked := false, owner := Free)];
        return;
      }
      var w := mutexes[m].waiters[selected.value];
      UnlinkWaiter(m, w.thread);
      mutexes := mutexes[m := mutexes[m].(owner := Granted(w.thread))];
      assert mutexes == old(mutexes)[m := mutexes[m]];
      Move(w.thread, LockWait(m, w.order, true));
      if w.thread.Worker? {
        ReleaseTask(w.thread.id, Ready);
        DispatchNext();
      }
    }

    /** SchedulerMutex::lock up to its wait. */
    method LockMutex(th: Thread, m: nat)
      requires IsThread(View(), th) && m < |mutexes|
      modifies this
      ensures View() == Lock(old(View()), th, m)
    {
      if !mutexes[m].locked {
        mutexes := mutexes[m := mutexes[m].(locked := true, owner := Held(th))];
        return;
      }
      var order := nextReady;
      mutexes := mutexes[m := mutexes[m].(waiters := [Waiter(th, order)] + mutexes[m].waiters)];
      match th {
        case Worker(c) =>
          BlockCurrent(c, Locking, None, false, 0, LockWait(m, order, false));
          DispatchNext();
        case Host(n) =>
          hosts := hosts[n := LockWait(m, order, false)];
          nextReady := nextReady + 1;
      }
    }

    method TryLockMutex(th: Thread, m: nat) returns (locked: bool)
      requires m < |mutexes|
      modifies this
      ensures View() == TryLock(old(View()), th, m)
      ensures locked <==> !old(mutexes)[m].locked
    {
      if mutexes[m].locked { return false; }
      mutexes := mutexes[m := mutexes[m].(locked := true, owner := Held(th))];
      return true;
    }

    method UnlockMutex(th: Thread, m: nat)
      requires IsThread(View(), th) && m < |mutexes|
      modifies this
      ensures View() == Unlock(old(View()), th, m)
    {
      ReleaseLocked(m);
      PreemptForHigherPriority(th, None);
    }

    /** lock() returns with the mutex it was granted. */
    method LockReturns(th: Thread)
      requires IsThread(View(), th) && PcOf(View(), th).LockWait? && PcOf(View(), th).mutex < |mutexes|
      modifies this
      ensures View() == LockReturn(old(View()), th)
    {
      var m := PcOf(View(), th).mutex;
      Move(th, Code);
      mutexes := mutexes[m := mutexes[m].(owner := Held(th))];
    }

    /** lock() gives up because the thread stops: it passes on a grant, or unlinks its waiter. */
    method LockCancelled(th: Thread)
      requires IsThread(View(), th) && PcOf(View(), th).LockWait? && PcOf(View(), th).mutex < |mutexes|
      modifies this
      ensures View() == LockCancel(old(View()), th)
    {
      var pc := PcOf(View(), th);
      Move(th, Code);
      if pc.granted { ReleaseLocked(pc.mutex); } else { UnlinkWaiter(pc.mutex, th); }
    }

    // ----- task lifecycle

    /** requestTaskStopLocked. */
    method RequestTaskStop(i: nat)
      requires i < |tasks|
      modifies this
      ensures View() == RequestStop(old(View()), i)
    {
      if tasks[i].blocked { ReleaseTask(i, Cancelled); }
      tasks := tasks[i := tasks[i].(stopping := true, runnable := false)];
      if running == Some(i) { running := None; }
      if tasks[i].life.cycle == Running {
        tasks := tasks[i := tasks[i].(life := tasks[i].life.(cycle := StopRequested))];
      }
    }

    /** vTaskDelete up to the join. */
    method TaskDelete(th: Thread, target: nat)
      requires IsThread(View(), th) && target < |tasks|
      modifies this
      ensures View() == Delete(old(View()), th, target)
    {
      RequestTaskStop(target);
      if th != Worker(target) { Move(th, Join(target)); }
    }

    /** The stop region of furble_sim_stop_all_tasks: one pass over the registry. */
    method StopAllTasks()
      requires running.Some? ==> running.value < |tasks|
      modifies this
      ensures View() == StopAll(old(View()))
    {
      ghost var before := View();
      for i := 0 to |tasks|
        invariant |tasks| == |before.tasks| && View() == before.(tasks := tasks, running := running)
        invariant running == before.running || (running == None && before.running.Some? && 0 < before.running.value < i)
        invariant running.Some? ==> running.value == 0 || running.value >= i
        invariant forall j :: 0 <= j < i ==> tasks[j] == if j > 0 then StoppedTask(before.tasks[j]) else before.tasks[j]
        invariant forall j :: i <= j < |tasks| ==> tasks[j] == before.tasks[j]
      {
        if i > 0 { RequestTaskStop(i); }
      }
      assert tasks == StopAll(before).tasks;
    }

    /** xTaskCreate: a task whose stack the heap cannot carry (`charged`), or that cannot be admitted any more, leaves
        no trace. */
    method TaskCreate(th: Thread, priority: nat, bytes: nat, charged: bool) returns (created: bool)
      requires IsThread(View(), th)
      modifies this
      ensures View() == if charged then Create(old(View()), th, priority, bytes) else old(View())
      ensures created <==> charged && !old(stopping)
    {
      hide Preempt;
      if !charged || stopping { return false; }
      tasks := tasks + [NewTask(priority, nextReady, bytes)];
      nextReady := nextReady + 1;
      PreemptForHigherPriority(th, None);
      return true;
    }

    /** markTaskFinished: the amount of heap released, if any. */
    method MarkFinished(c: nat) returns (released: nat)
      requires c < |tasks|
      modifies this
      ensures View() == Finish(old(View()), c)
      ensures released == if old(tasks)[c].heap.charged then old(tasks)[c].heap.bytes else 0
    {
      hide Dispatch, NextRunnable;
      tasks := tasks[c := tasks[c].(blocked := false, runnable := false, pc := Exited)];
      if running == Some(c) { running := None; }
      ghost var before := View();
      DispatchNext();
      DispatchLeavesTasks(before);
      released := 0;
      var t := tasks[c];
      if t.life.cycle == Running || t.life.cycle == StopRequested { t := t.(life := t.life.(cycle := Finished)); }
      if t.heap.charged {
        released := t.heap.bytes;
        t := t.(heap := Uncharged(t.heap));
      }
      FinishedOutOfSight(before, c, t);
      tasks := tasks[c := t];
      assert t == FinishedTask(old(tasks)[c]);
      assert SetTask(before, c, t) == GiveUpTurn(SetTask(old(View()), c, t), c);
    }

    /** One turn of joinTask's loop. */
    method PollJoinTask(th: Thread)
      requires IsThread(View(), th) && PcOf(View(), th).Join? && PcOf(View(), th).target < |tasks|
      modifies this
      ensures View() == PollJoin(old(View()), th)
    {
      var target := PcOf(View(), th).target;
      if tasks[target].life.cycle == Joined {
        Move(th, Code);
      } else if tasks[target].life.cycle == Finished {
        tasks := tasks[target := tasks[target].(life := tasks[target].life.(cycle := Joining, claimant := Some(th)))];
        Move(th, Claimed(target));
      }
    }

    method CompleteJoinTask(th: Thread)
      requires IsThread(View(), th) && PcOf(View(), th).Claimed? && PcOf(View(), th).target < |tasks|
      modifies this
      ensures View() == CompleteJoin(old(View()), th)
    {
      var target := PcOf(View(), th).target;
      var life := tasks[target].life;
      tasks := tasks[target := tasks[target].(life := life.(cycle := Joined, joins := life.joins + 1))];
      Move(th, Code);
    }

    // ----- turns, clock, timer service, teardown

    method TakeTheTurn(c: nat)
      requires c < |tasks| && tasks[c].pc.Turn?
      modifies this
      ensures View() == TakeTurn(old(View()), c)
    {
      var use := tasks[c].pc.use;
      tasks := tasks[c := tasks[c].(pc := Code)];
      LeaveQueue(use);
    }

    /** The entry of waitForTurnLocked. */
    method ReachTheTurn(c: nat)
      requires c < |tasks|
      modifies this
      ensures View() == ReachTurn(old(View()), c)
    {
      tasks := tasks[c := tasks[c].(parked := false)];
      DispatchNext();
    }

    /** The deadlock breaker of waitForTurnLocked. */
    method ParkHolder()
      modifies this
      ensures View() == Park(old(View()))
    {
      if running.None? || running.value >= |tasks| { return; }
      tasks := tasks[running.value := tasks[running.value].(parked := true)];
      running := None;
      DispatchNext();
    }

    method TimerDueChanged(due: bool)
      requires |tasks| > 0
      modifies this
      ensures View() == TimerDue(old(View()), due)
    {
      if due {
        if !tasks[0].runnable {
          tasks := tasks[0 := tasks[0].(runnable := true, readyOrder := nextReady)];
          nextReady := nextReady + 1;
        }
      } else if !timerExecuting {
        tasks := tasks[0 := tasks[0].(runnable := false)];
        if running == Some(0) { running := None; }
      }
      DispatchNext();
    }

    /** schedulerClockAdvanced. */
    method ClockAdvanced(elapsed: nat, due: bool)
      requires |tasks| > 0
      modifies this
      ensures View() == Advance(old(View()), elapsed, due)
    {
      hide TimerDue;
      micros := micros + elapsed;
      ReleaseDueWaiters();
      TimerDueChanged(due);
    }

    /** runSchedulerTimerCallback up to its wait for the turn. */
    method TimerCallbackEnters()
      requires |tasks| > 0
      modifies this
      ensures View() == EnterTimer(old(View()))
    {
      tasks := tasks[0 := tasks[0].(parked := false, pc := Turn(None))];
      if !tasks[0].runnable {
        tasks := tasks[0 := tasks[0].(runnable := true, readyOrder := nextReady)];
        nextReady := nextReady + 1;
      }
      assert View() == EnteredTimer(old(View())) by { assert tasks == old(tasks)[0 := tasks[0]]; }
      DispatchNext();
    }

    method TimerCallbackStarts()
      requires |tasks| > 0
      modifies this
      ensures View() == StartTimer(old(View()))
    {
      tasks := tasks[0 := tasks[0].(pc := Code)];
      timerExecuting := true;
    }

    method TimerCallbackEnds(due: bool)
      requires |tasks| > 0
      modifies this
      ensures View() == ExitTimer(old(View()), due)
    {
      timerExecuting := false;
      tasks := tasks[0 := tasks[0].(runnable := due, blocked := false, pc := Idle,
                                    wait := tasks[0].wait.(kind := NoWait, result := NoResult))];
      if running == Some(0) { running := None; }
      DispatchNext();
    }

    /** furble_sim_reset_tasks once every task was joined. */
    method ResetTasks()
      requires |tasks| > 0
      modifies this
      ensures View() == ResetKernel(old(View()))
    {
      running := None;
      nextReady := 0;
      tasks := tasks[0 := tasks[0].(runnable := false, blocked := false, stopping := false,
                                    wait := tasks[0].wait.(kind := NoWait, result := NoResult))];
      timerExecuting := false;
      stopping := false;
    }
  }

  /** What a resumed call did, in the terms of its caller. */
  lemma ResumedBy(k: Kernel, c: nat)
    requires c < |k.tasks| && k.tasks[c].pc.Wait?
    requires QueueOf(k.tasks[c].pc.op).Some? ==> QueueOf(k.tasks[c].pc.op).value < |k.queues|
    ensures Resumed(k, Resume(k, c), c)
  {
    hide Resume, Resumed;
    if StoppingThread(k, Worker(c)) { StoppedResumes(k, c); }
    else if k.tasks[c].pc.op.SendOp? { SendResumes(k, c); }
    else if k.tasks[c].pc.op.ReceiveOp? { ReceiveResumes(k, c); }
    else { OwnCallResumes(k, c); }
  }

  lemma DispatchLeavesTasks(k: Kernel)
    ensures Dispatch(k).tasks == k.tasks
  {
  }

  /** A task that cannot run plays no part in the dispatch, so it may be changed before or after it. */
  lemma FinishedOutOfSight(k: Kernel, c: nat, t: Task)
    requires c < |k.tasks| && !k.tasks[c].runnable && !t.runnable
    ensures Dispatch(k).tasks == k.tasks && SetTask(Dispatch(k), c, t) == Dispatch(SetTask(k, c, t))
  {
    assert ScanEntries(k) == ScanEntries(SetTask(k, c, t));
  }

  /** One more entry passed, the entry found, or the end of the list. */
  lemma WalkStep(ws: seq<Waiter>, link: nat, th: Thread)
    requires link <= |ws|
    ensures link == 0 ==> ws[..link] + Unlinked(ws[link..], th) == Unlinked(ws, th)
    ensures if link == |ws| then ws[..link] + Unlinked(ws[link..], th) == ws
            else if ws[link].thread == th then Unlinked(ws[link..], th) == ws[link + 1..]
            else ws[..link] + Unlinked(ws[link..], th) == ws[..link + 1] + Unlinked(ws[link + 1..], th)
  {
    assert link == 0 ==> ws[link..] == ws;
    if link < |ws| {
      var tail := ws[link..];
      assert tail[0] == ws[link] && tail[1..] == ws[link + 1..];
      if ws[link].thread != th {
        assert Unlinked(tail, th) == [ws[link]] + Unlinked(ws[link + 1..], th);
        hide Unlinked;
        assert ws[..link] + [ws[link]] == ws[..link + 1];
        assert ws[..link] + ([ws[link]] + Unlinked(ws[link + 1..], th)) ==
                 ws[..link] + [ws[link]] + Unlinked(ws[link + 1..], th);
      }
    }
  }

  /** One more candidate in the running selection. */
  lemma ScanStep(es: seq<Entry>, p: nat, entry: Entry)
    requires p < |es| && es[p] == entry && es[..p + 1][..p] == es[..p]
    ensures var kept := Select(es[..p]);
            Select(es[..p + 1]) == if entry.In? && (kept.None? || Beats(entry, es[kept.value])) then Some(p) else kept
  {
    assert es[..p + 1][p] == entry;
    var kept := Select(es[..p]);
    if kept.Some? { assert es[..p + 1][kept.value] == es[kept.value]; }
  }
}
