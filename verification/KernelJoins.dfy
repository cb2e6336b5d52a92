/** Lifecycles and joins: forward only, one joiner, every deleter returns to a joined task, one heap release. */
module KernelJoins {
  import opened Selection
  import opened KernelState
  import opened KernelSteps
  import opened KernelMachine
  import opened KernelInvariant
  import opened KernelPrimitives
  import opened KernelSafety
  import opened KernelProgress

  /** From `k` to `r` every lifecycle, claim, heap release and history only moved forward. */
  ghost predicate Forward(k: Kernel, r: Kernel) {
    && |k.tasks| <= |r.tasks| && |k.queues| <= |r.queues|
    && (forall i {:trigger r.tasks[i]} {:trigger k.tasks[i]} :: 0 <= i < |k.tasks| ==>
          TaskOnward(k.tasks[i], r.tasks[i]))
    && (forall q {:trigger r.queues[q]} {:trigger k.queues[q]} :: 0 <= q < |k.queues| ==>
          QueueOnward(k.queues[q], r.queues[q], true))
  }

  lemma StepForward(k: Kernel, s: Step)
    requires KernelOk(k) && Enabled(k, s)
    ensures Forward(k, Next(k, s))
  {
    StepOnward(k, s);
    hide KernelOk, Next, Enabled, ScopeOf;
  }

  /** Over every continuation of every reachable state: a task's priority never changes, its lifecycle never goes back,
      a claimed join keeps its claimant, and heap releases and queue histories are only ever appended to. */
  lemma {:induction false} RunsGoForward(k: Kernel, run: seq<Step>)
    requires KernelOk(k) && IsRun(k, run)
    ensures Forward(k, After(k, run))
    decreases |run|
  {
    hide KernelOk, Forward;
    if run == [] {
      ForwardSelf(k);
    } else {
      StepKeeps(k, run[0]);
      StepForward(k, run[0]);
      RunsGoForward(Next(k, run[0]), run[1..]);
      ForwardThen(k, Next(k, run[0]), After(k, run));
    }
  }

  lemma ForwardSelf(k: Kernel)
    ensures Forward(k, k)
  {
  }

  lemma ForwardThen(k: Kernel, mid: Kernel, r: Kernel)
    requires Forward(k, mid) && Forward(mid, r)
    ensures Forward(k, r)
  {
    forall i | 0 <= i < |k.tasks| ensures TaskOnward(k.tasks[i], r.tasks[i]) {
      assert TaskOnward(k.tasks[i], mid.tasks[i]) && TaskOnward(mid.tasks[i], r.tasks[i]);
    }
    forall q | 0 <= q < |k.queues| ensures QueueOnward(k.queues[q], r.queues[q], true) {
      assert QueueOnward(k.queues[q], mid.queues[q], true) && QueueOnward(mid.queues[q], r.queues[q], true);
    }
  }

  /** After every run from boot, however many threads delete the same task: its worker was joined at most once and
      exactly if the task is joined; at most one thread is inside worker.join(), the one that claimed it; and the heap
      charge was released exactly once if the task ended with one, and never otherwise. */
  lemma JoinedOnce(start: Kernel, run: seq<Step>, i: nat)
    requires Initial(start) && IsRun(start, run) && i < |After(start, run).tasks|
    ensures var k := After(start, run); var t := k.tasks[i];
            && t.life.joins == (if t.life.cycle == Joined then 1 else 0)
            && (forall th, u ::
                  IsThread(k, th) && IsThread(k, u) && PcOf(k, th) == Claimed(i) && PcOf(k, u) == Claimed(i) ==>
                    th == u)
            && (forall th :: IsThread(k, th) && PcOf(k, th) == Claimed(i) ==>
                  t.life.claimant == Some(th) && t.life.cycle == Joining)
            && (t.pc.Exited? ==> t.heap.released == if t.heap.charge == 0 then [] else [t.heap.charge])
            && (!t.pc.Exited? ==> t.heap.released == [])
  {
    Reachable(start, run);
    var k := After(start, run);
    Facts(k, i);
    forall th | IsThread(k, th) && PcOf(k, th) == Claimed(i)
      ensures k.tasks[i].life.claimant == Some(th) && k.tasks[i].life.cycle == Joining
    {
      match th
      case Worker(j) => assert JoinPcOk(k, th, k.tasks[j].pc);
      case Host(n) => assert JoinPcOk(k, th, k.hosts[n]);
    }
  }

  /** Between `k` and `r` thread `th` stayed where it was in its join on `target`, or claimed the unclaimed worker, or
      returned to a joined task whose worker was joined once. */
  ghost predicate JoinProgress(k: Kernel, r: Kernel, th: Thread, target: nat)
    requires IsThread(k, th)
  {
    && IsThread(r, th) && target < |k.tasks| <= |r.tasks|
    && (|| PcOf(r, th) == PcOf(k, th)
        || (PcOf(k, th) == Join(target) && PcOf(r, th) == Claimed(target)
            && k.tasks[target].life.claimant == None && r.tasks[target].life.claimant == Some(th))
        || (r.tasks[target].life.cycle == Joined && r.tasks[target].life.joins == 1))
  }

  /** A thread inside vTaskDelete's join leaves it in one way only: it claims the finished worker and joins it, or it
      returns; and it returns only when the task is joined, its worker having been joined once. */
  lemma DeletersReturnJoined(k: Kernel, s: Step, th: Thread, target: nat)
    requires KernelOk(k) && Enabled(k, s) && IsThread(k, th)
    requires PcOf(k, th) == Join(target) || PcOf(k, th) == Claimed(target)
    ensures JoinProgress(k, Next(k, s), th, target)
  {
    hide KernelOk, Onward, Next, Enabled;
    TargetFacts(k, th, target);
    StepOnward(k, s);
    if s == DoPollJoin(th) || s == DoCompleteJoin(th) {
      OwnJoinStep(k, s, th, target);
    } else {
      OthersJoinStep(k, s, th);
      OnwardTasks(k, Next(k, s), ScopeOf(s));
    }
  }

  lemma TargetFacts(k: Kernel, th: Thread, target: nat)
    requires KernelOk(k) && IsThread(k, th) && (PcOf(k, th) == Join(target) || PcOf(k, th) == Claimed(target))
    ensures target < |k.tasks| && TaskOk(k, target)
    ensures PcOf(k, th) == Claimed(target) ==> k.tasks[target].life.cycle == Joining
  {
    match th {
      case Worker(j) => assert JoinPcOk(k, th, k.tasks[j].pc);
      case Host(n) => assert JoinPcOk(k, th, k.hosts[n]);
    }
    Facts(k, target);
  }

  lemma OnwardTasks(k: Kernel, r: Kernel, scope: Scope)
    requires Onward(k, r, scope)
    ensures |k.tasks| <= |r.tasks|
  {
  }

  lemma OwnJoinStep(k: Kernel, s: Step, th: Thread, target: nat)
    requires Enabled(k, s) && IsThread(k, th) && target < |k.tasks| && TaskOk(k, target)
    requires s == DoPollJoin(th) || s == DoCompleteJoin(th)
    requires PcOf(k, th) == Join(target) || PcOf(k, th) == Claimed(target)
    requires PcOf(k, th) == Claimed(target) ==> k.tasks[target].life.cycle == Joining
    ensures JoinProgress(k, Next(k, s), th, target)
  {
  }

  lemma OthersJoinStep(k: Kernel, s: Step, th: Thread)
    requires Enabled(k, s) && IsThread(k, th) && (PcOf(k, th).Join? || PcOf(k, th).Claimed?)
    requires s != DoPollJoin(th) && s != DoCompleteJoin(th) && Onward(k, Next(k, s), ScopeOf(s))
    ensures IsThread(Next(k, s), th) && PcOf(Next(k, s), th) == PcOf(k, th)
  {
    ActorElsewhere(k, s, th);
    hide Next;
    assert IsThread(Next(k, s), th);
    match th
    case Worker(j) => assert BystandsAt(j, k.tasks[j], Next(k, s).tasks[j], ScopeOf(s));
    case Host(n) => assert Bystands(k.hosts[n], Next(k, s).hosts[n]);
  }

  lemma ActorElsewhere(k: Kernel, s: Step, th: Thread)
    requires Enabled(k, s) && IsThread(k, th) && (PcOf(k, th).Join? || PcOf(k, th).Claimed?)
    requires s != DoPollJoin(th) && s != DoCompleteJoin(th)
    ensures ScopeOf(s).actor != Some(th) || s == DoResetKernel
    ensures s == DoResetKernel ==> th != Worker(0)
  {
  }
}
