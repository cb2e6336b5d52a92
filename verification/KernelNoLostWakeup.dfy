/** No lost wake-up over whole runs, and exactly which stops and resets break the promise. */
module KernelNoLostWakeup {
  import opened Selection
  import opened KernelState
  import opened KernelSteps
  import opened KernelMachine
  import opened KernelInvariant
  import opened KernelPrimitives
  import opened KernelSafety
  import opened KernelProgress
  import opened KernelWakeup
  import opened KernelQueues

  /** The step stops nobody and resets no queue. */
  predicate Quiet(s: Step) { !s.DoDelete? && !s.DoStop? && !s.DoStopAll? && !s.DoResetQueue? }

  ghost predicate IsQuietRun(k: Kernel, run: seq<Step>) {
    IsRun(k, run) && forall i :: 0 <= i < |run| ==> Quiet(run[i])
  }

  /** The two steps that lose a wake-up: a stopping task leaves its wait with one although somebody else still waits for
      the same supply and the woken tasks' share is all there is; or a reset wakes one of several senders although more
      slots came free than the woken senders will fill. */
  ghost predicate LosesWakeup(k: Kernel, s: Step)
    requires Enabled(k, s)
  {
    match s
    case DoResume(c) =>
      var op := k.tasks[c].pc.op;
      && StoppingThread(k, Worker(c)) && k.tasks[c].wait.result == Ready && QueueOf(op).Some?
      && QueueOf(op).value < |k.queues| && Waiting(k, QueueOf(op).value, KindOf(op)) != {}
      && Supply(k.queues[QueueOf(op).value], KindOf(op)) == |Woken(k, QueueOf(op).value, KindOf(op))|
    case DoResetQueue(th, q) =>
      Resets(k, th, q) && |Waiting(k, q, Sending)| > 1 && k.queues[q].capacity > |Woken(k, q, Sending)| + 1
    case _ => false
  }

  /** Of all steps of all threads exactly these break the promise. */
  lemma StepKeepsWakeupsIff(k: Kernel, s: Step)
    requires KernelOk(k) && WakeOk(k) && Enabled(k, s)
    ensures WakeOk(Next(k, s)) <==> !LosesWakeup(k, s)
  {
    hide KernelOk, WakeOk;
    if s.DoResetQueue? {
      ResetStepIff(k, s);
    } else if s.DoResume? && StoppingThread(k, Worker(s.c)) {
      StoppedStepIff(k, s);
    } else {
      StepWakes(k, s);
    }
  }

  lemma ResetStepIff(k: Kernel, s: Step)
    requires KernelOk(k) && WakeOk(k) && s.DoResetQueue? && Enabled(k, s)
    ensures WakeOk(Next(k, s)) <==> !LosesWakeup(k, s)
  {
    hide KernelOk, WakeOk, Publish;
    if Resets(k, s.th, s.queue) { ResetKeepsWakeupsIff(k, s.th, s.queue); }
  }

  lemma StoppedStepIff(k: Kernel, s: Step)
    requires KernelOk(k) && WakeOk(k) && s.DoResume? && Enabled(k, s) && StoppingThread(k, Worker(s.c))
    ensures WakeOk(Next(k, s)) <==> !LosesWakeup(k, s)
  {
    var op := k.tasks[s.c].pc.op;
    hide WakeOk, Resume;
    if QueueOf(op).Some? {
      StoppedWakeupLostIff(k, s.c, QueueOf(op).value, KindOf(op));
    } else {
      StoppedElsewhere(k, s.c);
    }
  }

  lemma StoppedElsewhere(k: Kernel, c: nat)
    requires KernelOk(k) && WakeOk(k) && Enabled(k, DoResume(c)) && StoppingThread(k, Worker(c))
             && QueueOf(k.tasks[c].pc.op).None?
    ensures WakeOk(Resume(k, c))
  {
    Facts(k, c);
    ResumedAway(k, c);
  }

  /** No step of the run loses a wake-up. */
  ghost predicate NoneLost(k: Kernel, run: seq<Step>)
    requires IsRun(k, run)
    decreases |run|
  {
    run == [] || (!LosesWakeup(k, run[0]) && NoneLost(Next(k, run[0]), run[1..]))
  }

  /** The promise holds before the run and after each of its steps. */
  ghost predicate PromiseThroughout(k: Kernel, run: seq<Step>)
    requires IsRun(k, run)
    decreases |run|
  {
    WakeOk(k) && (run == [] || PromiseThroughout(Next(k, run[0]), run[1..]))
  }

  /** Over any run the promise holds throughout exactly if no step loses a wake-up. */
  lemma {:induction false} PromiseThroughoutIff(k: Kernel, run: seq<Step>)
    requires KernelOk(k) && WakeOk(k) && IsRun(k, run)
    ensures PromiseThroughout(k, run) <==> NoneLost(k, run)
    ensures NoneLost(k, run) ==> WakeOk(After(k, run))
    decreases |run|
  {
    hide KernelOk, WakeOk, LosesWakeup;
    if run != [] {
      StepKeeps(k, run[0]);
      StepKeepsWakeupsIff(k, run[0]);
      if WakeOk(Next(k, run[0])) { PromiseThroughoutIff(Next(k, run[0]), run[1..]); }
    }
  }

  /** From boot: the promise holds after every step exactly if no step loses a wake-up. */
  lemma WakeupsKeptFromBootIff(start: Kernel, run: seq<Step>)
    requires Initial(start) && IsRun(start, run)
    ensures PromiseThroughout(start, run) <==> NoneLost(start, run)
  {
    InitialOk(start);
    PromiseThroughoutIff(start, run);
  }

  ghost predicate NobodyStops(k: Kernel) {
    !k.stopping && forall i {:trigger k.tasks[i]} :: 0 <= i < |k.tasks| ==> !k.tasks[i].stopping
  }

  /** A run from boot without stops and resets loses no wake-up. */
  lemma QuietRunsLoseNothing(start: Kernel, run: seq<Step>)
    requires Initial(start) && IsQuietRun(start, run)
    ensures NoneLost(start, run)
  {
    InitialOk(start);
    QuietRunLosesNothing(start, run);
  }

  lemma {:induction false} QuietRunLosesNothing(k: Kernel, run: seq<Step>)
    requires KernelOk(k) && NobodyStops(k) && IsQuietRun(k, run)
    ensures NoneLost(k, run)
    decreases |run|
  {
    hide KernelOk, NobodyStops;
    if run != [] {
      StepKeeps(k, run[0]);
      QuietStepStopsNobody(k, run[0]);
      QuietStepLosesNothing(k, run[0]);
      QuietRunLosesNothing(Next(k, run[0]), run[1..]);
    }
  }

  lemma QuietStepStopsNobody(k: Kernel, s: Step)
    requires KernelOk(k) && NobodyStops(k) && Enabled(k, s) && Quiet(s)
    ensures NobodyStops(Next(k, s))
  {
    StepOnward(k, s);
    hide KernelOk, Enabled, Next;
  }

  lemma QuietStepLosesNothing(k: Kernel, s: Step)
    requires NobodyStops(k) && Enabled(k, s) && Quiet(s)
    ensures !LosesWakeup(k, s)
  {
    hide Waiting, Woken;
  }

  /** After every run from boot that loses no wake-up, stops and deletions included: while a task is blocked receiving,
      each queued item is spoken for by a receiver that was released and has not resumed; while one is blocked sending,
      each free slot by a released sender; nobody is blocked on a deleted queue; and a task blocked on a notification
      has none pending. */
  lemma NoLostWakeup(start: Kernel, run: seq<Step>, i: nat)
    requires Initial(start) && IsRun(start, run) && NoneLost(start, run)
    requires i < |After(start, run).tasks| && After(start, run).tasks[i].blocked
    ensures var k := After(start, run); var w := k.tasks[i].wait;
            && (w.kind == Receiving || w.kind == Sending ==>
                  w.queue.Some? && w.queue.value < |k.queues| && !k.queues[w.queue.value].deleted)
            && (w.kind == Receiving ==> |k.queues[w.queue.value].items| <= |Woken(k, w.queue.value, Receiving)|)
            && (w.kind == Sending ==>
                  k.queues[w.queue.value].capacity - |k.queues[w.queue.value].items| <=
                    |Woken(k, w.queue.value, Sending)|)
            && (w.kind == Notified ==> k.tasks[i].notes.count == 0)
  {
    InitialOk(start);
    PromiseThroughoutIff(start, run);
    Reachable(start, run);
    BlockedOnPromise(After(start, run), i);
  }

  lemma BlockedOnPromise(k: Kernel, i: nat)
    requires KernelOk(k) && WakeOk(k) && i < |k.tasks| && k.tasks[i].blocked
    ensures var w := k.tasks[i].wait;
            && (w.kind == Receiving || w.kind == Sending ==>
                  w.queue.Some? && w.queue.value < |k.queues| && !k.queues[w.queue.value].deleted)
            && (w.kind == Receiving ==> |k.queues[w.queue.value].items| <= |Woken(k, w.queue.value, Receiving)|)
            && (w.kind == Sending ==>
                  k.queues[w.queue.value].capacity - |k.queues[w.queue.value].items| <=
                    |Woken(k, w.queue.value, Sending)|)
            && (w.kind == Notified ==> k.tasks[i].notes.count == 0)
  {
    Facts(k, i);
    var w := k.tasks[i].wait;
    if w.kind == Receiving || w.kind == Sending {
      assert i in Waiting(k, w.queue.value, w.kind);
      assert Spoken(k, w.queue.value, Receiving, 0) && Spoken(k, w.queue.value, Sending, 0);
    }
  }

  /** After every run from boot, stops and deletions included: notifications given are the ones pending, the ones
      cleared, the ones taken singly and 2^32 for each wrap of the count, and no task is blocked on one it already
      has. */
  lemma NotificationsCounted(start: Kernel, run: seq<Step>, i: nat)
    requires Initial(start) && IsRun(start, run) && i < |After(start, run).tasks|
    ensures var t := After(start, run).tasks[i];
            && t.notes.gives == t.notes.cleared + t.notes.singles + t.notes.count + 0x1_0000_0000 * t.notes.wraps
            && t.notes.count < 0x1_0000_0000
            && (t.blocked && t.wait.kind == Notified ==> t.notes.count == 0)
  {
    Reachable(start, run);
    Facts(After(start, run), i);
  }

  // ----- task stops

  /** The wake-up of a stopping task that leaves its wait is lost exactly when another task is still blocked for the
      same supply and nothing beyond the woken tasks' share is left. */
  lemma StoppedWakeupLostIff(k: Kernel, c: nat, q: nat, kind: WaitKind)
    requires KernelOk(k) && WakeOk(k) && Enabled(k, DoResume(c)) && StoppingThread(k, Worker(c))
    requires (kind == Sending || kind == Receiving) && kind == KindOf(k.tasks[c].pc.op)
             && Some(q) == QueueOf(k.tasks[c].pc.op)
    ensures q < |k.queues|
    ensures !WakeOk(Resume(k, c)) <==>
              && k.tasks[c].wait.result == Ready
              && Waiting(k, q, kind) != {}
              && Supply(k.queues[q], kind) == |Woken(k, q, kind)|
  {
    Facts(k, c);
    var r := Dispatch(Awaken(k, c));
    assert Resume(k, c) == r;
    var lost := k.tasks[c].wait.result == Ready && Waiting(k, q, kind) != {}
      && Supply(k.queues[q], kind) == |Woken(k, q, kind)|;
    LeavingQueues(k, c);
    assert Spoken(k, q, kind, 0);
    hide KernelOk, Resume, Awaken, Dispatch, Waiting, Woken, Enabled, Spoken, Supply;
    forall p | 0 <= p < |r.queues| && !lost ensures Spoken(r, p, Receiving, 0) && Spoken(r, p, Sending, 0) {
      assert Spoken(k, p, Receiving, 0) && Spoken(k, p, Sending, 0);
      LeavingSpoken(k, c, p, Receiving);
      LeavingSpoken(k, c, p, Sending);
    }
    LeavingSpoken(k, c, q, kind);
  }

  lemma LeavingQueues(k: Kernel, c: nat)
    requires c < |k.tasks| && k.tasks[c].pc.Wait?
    ensures |Dispatch(Awaken(k, c)).queues| == |k.queues|
  {
  }

  /** What is left for the blocked after task c left its wait: one woken task less, if it was one. */
  lemma LeavingSpoken(k: Kernel, c: nat, p: nat, kind: WaitKind)
    requires KernelOk(k) && 0 < c < |k.tasks| && k.tasks[c].pc.Wait?
             && p < |k.queues| == |Dispatch(Awaken(k, c)).queues|
    requires (kind == Sending || kind == Receiving) && Spoken(k, p, kind, 0)
    ensures !Spoken(Dispatch(Awaken(k, c)), p, kind, 0) <==>
              WokenTask(k.tasks[c], p, kind) && Waiting(k, p, kind) != {}
                && Supply(k.queues[p], kind) == |Woken(k, p, kind)|
  {
    Facts(k, c);
    LeavingSets(k, c, p, kind);
    AwakenQueues(k, c, p);
    hide KernelOk, Awaken, Waiting, Woken;
  }

  lemma LeavingSets(k: Kernel, c: nat, q: nat, kind: WaitKind)
    requires KernelOk(k) && 0 < c < |k.tasks| && k.tasks[c].pc.Wait? && (kind == Sending || kind == Receiving)
    ensures var r := Dispatch(Awaken(k, c));
            && Waiting(r, q, kind) <= Waiting(k, q, kind)
            && (!k.tasks[c].blocked ==> Waiting(r, q, kind) == Waiting(k, q, kind))
            && |Woken(r, q, kind)| == |Woken(k, q, kind)| - (if WokenTask(k.tasks[c], q, kind) then 1 else 0)
  {
    Facts(k, c);
    AwakenSets(k, c, q, kind);
    SameSets(Awaken(k, c), Dispatch(Awaken(k, c)), q);
  }

  // ----- the kernel with the missing capacity check

  /** The corrected kernel loses no other wake-up: a sender it turns away finds no free slot that anybody waits for. */
  lemma RetestKeepsWakeups(k: Kernel, s: Step)
    requires KernelOk(k) && WakeOk(k) && Enabled(k, s)
    ensures WakeOk(NextRetested(k, s)) <==> !LosesWakeup(k, s)
  {
    if Overfills(k, s) {
      TurnedAwayWakes(k, s.c);
    } else {
      hide KernelOk, WakeOk;
      StepKeepsWakeupsIff(k, s);
    }
  }

  lemma TurnedAwayWakes(k: Kernel, c: nat)
    requires KernelOk(k) && WakeOk(k) && Enabled(k, DoResume(c)) && Overfills(k, DoResume(c))
    ensures WakeOk(Dispatch(Awaken(k, c)))
  {
    Facts(k, c);
    LeavingQueues(k, c);
    var q := k.tasks[c].pc.op.queue;
    var r := Dispatch(Awaken(k, c));
    assert c in Woken(k, q, Sending);
    hide KernelOk, Awaken, Dispatch, Waiting, Woken, Enabled, Spoken;
    forall p | 0 <= p < |r.queues| ensures Spoken(r, p, Receiving, 0) && Spoken(r, p, Sending, 0) {
      assert Spoken(k, p, Receiving, 0) && Spoken(k, p, Sending, 0);
      LeavingSpoken(k, c, p, Receiving);
      LeavingSpoken(k, c, p, Sending);
    }
  }

  // ----- queue resets

  /** A reset does nothing for a deleted queue or a stopping task. */
  predicate Resets(k: Kernel, th: Thread, q: nat)
    requires IsThread(k, th) && q < |k.queues|
  {
    !k.queues[q].deleted && !(th.Worker? && StoppingThread(k, th))
  }

  /** Emptying a queue wakes one sender only: the promise survives exactly when at most one was blocked, or the
      senders already woken and this one fill the whole queue. */
  lemma ResetKeepsWakeupsIff(k: Kernel, th: Thread, q: nat)
    requires KernelOk(k) && WakeOk(k) && Enabled(k, DoResetQueue(th, q)) && Resets(k, th, q)
    ensures WakeOk(ResetQueue(k, th, q)) <==>
              |Waiting(k, q, Sending)| <= 1 || k.queues[q].capacity <= |Woken(k, q, Sending)| + 1
  {
    var r := ResetQueue(k, th, q);
    ResetHere(k, th, q);
    hide KernelOk, ResetQueue, Resets, Spoken, Waiting, Woken;
    if Spoken(r, q, Sending, 0) {
      forall p | 0 <= p < |r.queues| ensures Spoken(r, p, Receiving, 0) && Spoken(r, p, Sending, 0) {
        if p != q { ResetElsewhere(k, th, q, p); }
      }
    }
  }

  lemma ResetHere(k: Kernel, th: Thread, q: nat)
    requires KernelOk(k) && Enabled(k, DoResetQueue(th, q)) && Resets(k, th, q)
    ensures |ResetQueue(k, th, q).queues| == |k.queues| && Spoken(ResetQueue(k, th, q), q, Receiving, 0)
    ensures Spoken(ResetQueue(k, th, q), q, Sending, 0) <==>
              |Waiting(k, q, Sending)| <= 1 || k.queues[q].capacity <= |Woken(k, q, Sending)| + 1
  {
    ResetSets(k, th, q);
    hide KernelOk, ResetQueue, Enabled, Waiting, Woken;
  }

  /** The queue emptied, before anybody is woken for it. */
  function Cleared(k: Kernel, q: nat): Kernel
    requires q < |k.queues|
  {
    SetQueue(k, q, k.queues[q].(items := [], discarded := k.queues[q].discarded + k.queues[q].items))
  }

  lemma ResetReleases(k: Kernel, th: Thread, q: nat)
    requires KernelOk(k) && Enabled(k, DoResetQueue(th, q)) && Resets(k, th, q)
    ensures AlikeWaits(ReleaseQueueWaiter(Cleared(k, q), q, Sending), ResetQueue(k, th, q))
    ensures ReleaseQueueWaiter(Cleared(k, q), q, Sending).queues == Cleared(k, q).queues
  {
    hide KernelOk, Publish, ReleaseQueueWaiter, AlikeWaits;
    ReleaseKeepsCaller(k, Cleared(k, q), th, q);
    PublishAlike(k, Cleared(k, q), th, q);
  }

  lemma ResetSets(k: Kernel, th: Thread, q: nat)
    requires KernelOk(k) && Enabled(k, DoResetQueue(th, q)) && Resets(k, th, q)
    ensures var r := ResetQueue(k, th, q);
            && |r.queues| == |k.queues| && r.queues[q].items == [] && r.queues[q].capacity == k.queues[q].capacity
               && !r.queues[q].deleted
            && (if Waiting(k, q, Sending) == {} then Waiting(r, q, Sending) == {}
                else
                  && |Waiting(r, q, Sending)| == |Waiting(k, q, Sending)| - 1
                  && |Woken(r, q, Sending)| == |Woken(k, q, Sending)| + 1)
  {
    ResetReleases(k, th, q);
    hide KernelOk, ReleaseQueueWaiter, ResetQueue, Waiting, Woken;
    ReleasedSets(k, Cleared(k, q), q);
    AlikeSets(ReleaseQueueWaiter(Cleared(k, q), q, Sending), ResetQueue(k, th, q), q);
  }

  lemma ResetElsewhere(k: Kernel, th: Thread, q: nat, p: nat)
    requires KernelOk(k) && Enabled(k, DoResetQueue(th, q)) && Resets(k, th, q)
    requires WakeOk(k) && p < |k.queues| && p != q
    ensures p < |ResetQueue(k, th, q).queues|
    ensures Spoken(ResetQueue(k, th, q), p, Receiving, 0) && Spoken(ResetQueue(k, th, q), p, Sending, 0)
  {
    assert Spoken(k, p, Receiving, 0) && Spoken(k, p, Sending, 0);
    var released := ReleaseQueueWaiter(Cleared(k, q), q, Sending);
    ResetReleases(k, th, q);
    OtherSets(k, Cleared(k, q), q, p);
    assert released.queues[p] == k.queues[p];
    hide KernelOk, WakeOk, ReleaseQueueWaiter, ResetQueue, AlikeWaits, Cleared, Spoken, Waiting, Woken;
    AlikeSets(released, ResetQueue(k, th, q), p);
    SpokenAlike(k, ResetQueue(k, th, q), p);
  }

  lemma SpokenAlike(k: Kernel, r: Kernel, p: nat)
    requires p < |k.queues| && p < |r.queues| && r.queues[p].items == k.queues[p].items
    requires r.queues[p].capacity == k.queues[p].capacity && r.queues[p].deleted == k.queues[p].deleted
    requires Waiting(r, p, Receiving) == Waiting(k, p, Receiving) && Woken(r, p, Receiving) == Woken(k, p, Receiving)
    requires Waiting(r, p, Sending) == Waiting(k, p, Sending) && Woken(r, p, Sending) == Woken(k, p, Sending)
    requires Spoken(k, p, Receiving, 0) && Spoken(k, p, Sending, 0)
    ensures Spoken(r, p, Receiving, 0) && Spoken(r, p, Sending, 0)
  {
  }

  lemma ReleasedSets(k: Kernel, cleared: Kernel, q: nat)
    requires KernelOk(k) && q < |k.queues| && cleared == k.(queues := cleared.queues)
    ensures var released := ReleaseQueueWaiter(cleared, q, Sending);
            && Waiting(released, q, Receiving) == Waiting(k, q, Receiving)
               && Woken(released, q, Receiving) == Woken(k, q, Receiving)
            && (if Waiting(k, q, Sending) == {} then
                  Waiting(released, q, Sending) == {} && Woken(released, q, Sending) == Woken(k, q, Sending)
                else
                  && |Waiting(released, q, Sending)| == |Waiting(k, q, Sending)| - 1
                  && |Woken(released, q, Sending)| == |Woken(k, q, Sending)| + 1)
  {
    SameSets(k, cleared, q);
    var chosen := QueueWaiter(cleared, q, Sending);
    if chosen.Some? {
      ReleasedSender(k, chosen.value, q);
      SameSets(Release(k, chosen.value, Ready), Release(cleared, chosen.value, Ready), q);
    } else {
      NobodyWaits(cleared, q, Sending);
    }
  }

  lemma ReleasedSender(k: Kernel, i: nat, q: nat)
    requires KernelOk(k) && 0 < i < |k.tasks| && WaitsOn(k.tasks[i], q, Sending)
    ensures var released := Release(k, i, Ready);
            && Waiting(released, q, Receiving) == Waiting(k, q, Receiving)
               && Woken(released, q, Receiving) == Woken(k, q, Receiving)
            && Waiting(k, q, Sending) != {}
            && |Waiting(released, q, Sending)| == |Waiting(k, q, Sending)| - 1
               && |Woken(released, q, Sending)| == |Woken(k, q, Sending)| + 1
  {
    var released := Release(k, i, Ready);
    assert TaskOk(k, i);
    hide KernelOk;
    assert i in Waiting(k, q, Sending) && i !in Woken(k, q, Sending);
    assert Waiting(released, q, Sending) == Waiting(k, q, Sending) - {i};
    assert Woken(released, q, Sending) == Woken(k, q, Sending) + {i};
  }

  lemma OtherSets(k: Kernel, cleared: Kernel, q: nat, p: nat)
    requires KernelOk(k) && q < |k.queues| && p != q && cleared == k.(queues := cleared.queues)
    ensures var released := ReleaseQueueWaiter(cleared, q, Sending);
            && Waiting(released, p, Receiving) == Waiting(k, p, Receiving)
               && Woken(released, p, Receiving) == Woken(k, p, Receiving)
            && Waiting(released, p, Sending) == Waiting(k, p, Sending)
               && Woken(released, p, Sending) == Woken(k, p, Sending)
  {
    var released := ReleaseQueueWaiter(cleared, q, Sending);
    var chosen := QueueWaiter(cleared, q, Sending);
    if chosen.Some? { assert TaskOk(k, chosen.value); }
    hide KernelOk;
  }

  /** Every task is blocked, or woken, exactly as before. */
  ghost predicate AlikeWaits(k: Kernel, r: Kernel) {
    && |r.tasks| == |k.tasks| && |r.queues| == |k.queues|
    && (forall i {:trigger r.tasks[i]} {:trigger k.tasks[i]} :: 0 <= i < |k.tasks| ==>
          && r.tasks[i].blocked == k.tasks[i].blocked && r.tasks[i].wait == k.tasks[i].wait
          && (r.tasks[i].pc == k.tasks[i].pc || (!r.tasks[i].pc.Wait? && !k.tasks[i].pc.Wait?)))
    && (forall q {:trigger r.queues[q]} {:trigger k.queues[q]} :: 0 <= q < |k.queues| ==>
          r.queues[q].items == k.queues[q].items && r.queues[q].capacity == k.queues[q].capacity
          && r.queues[q].deleted == k.queues[q].deleted)
  }

  lemma AlikeSets(k: Kernel, r: Kernel, p: nat)
    requires AlikeWaits(k, r)
    ensures Waiting(r, p, Receiving) == Waiting(k, p, Receiving) && Woken(r, p, Receiving) == Woken(k, p, Receiving)
    ensures Waiting(r, p, Sending) == Waiting(k, p, Sending) && Woken(r, p, Sending) == Woken(k, p, Sending)
    ensures p < |k.queues| ==> p < |r.queues| && r.queues[p].items == k.queues[p].items
                               && r.queues[p].capacity == k.queues[p].capacity
                                  && r.queues[p].deleted == k.queues[p].deleted
  {
  }

  /** Dispatching and preempting leave the blocked and the woken as they are. */
  lemma PublishAlike(k: Kernel, cleared: Kernel, th: Thread, q: nat)
    requires KernelOk(k) && Calls(k, th) && cleared == k.(queues := cleared.queues)
    ensures AlikeWaits(ReleaseQueueWaiter(cleared, q, Sending), Publish(cleared, th, q, Sending))
  {
    var released := ReleaseQueueWaiter(cleared, q, Sending);
    ReleaseKeepsCaller(k, cleared, th, q);
    hide KernelOk, ReleaseQueueWaiter, Preempt;
    PreemptAlike(Dispatch(released), th, Some(q));
    AlikeWaitsMove(released, Dispatch(released), Publish(cleared, th, q, Sending));
  }

  lemma AlikeWaitsMove(k: Kernel, mid: Kernel, r: Kernel)
    requires mid.tasks == k.tasks && mid.queues == k.queues && AlikeWaits(mid, r)
    ensures AlikeWaits(k, r)
  {
  }

  lemma ReleaseKeepsCaller(k: Kernel, cleared: Kernel, th: Thread, q: nat)
    requires KernelOk(k) && Calls(k, th) && cleared == k.(queues := cleared.queues)
    ensures Calls(ReleaseQueueWaiter(cleared, q, Sending), th)
    ensures ReleaseQueueWaiter(cleared, q, Sending).queues == cleared.queues
  {
    var chosen := QueueWaiter(cleared, q, Sending);
    if chosen.Some? { assert TaskOk(k, chosen.value); }
  }

  lemma PreemptAlike(k: Kernel, th: Thread, use: Option<nat>)
    requires Calls(k, th)
    ensures AlikeWaits(k, Preempt(k, th, use))
  {
    hide NextRunnable;
  }
}
