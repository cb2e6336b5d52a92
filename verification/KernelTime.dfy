/** Timed waits on the wrapping 32-bit millisecond clock. */
module KernelTime {
  import opened Selection
  import opened KernelState
  import opened KernelSteps
  import opened KernelMachine
  import opened KernelInvariant
  import opened KernelPrimitives
  import opened KernelSafety
  import opened KernelProgress

  // ----- the clock arithmetic

  /** The wrapped difference is the true one as long as less than a full turn of the clock passed. */
  lemma ElapsedIsTrueDifference(now: nat, since: nat)
    ensures now >= since && now - since < TICKS_WRAP ==> Elapsed(now % TICKS_WRAP, since % TICKS_WRAP) == now - since
    ensures Elapsed(now % TICKS_WRAP, since % TICKS_WRAP) == (now - since) % TICKS_WRAP
  {
    var a, b := now / TICKS_WRAP, since / TICKS_WRAP;
    assert now % TICKS_WRAP - since % TICKS_WRAP == (now - since) - TICKS_WRAP * (a - b);
  }

  /** The wrapped test agrees with the true order exactly within half a turn of the clock: it is right from 2^31 ms
      before the deadline until just under 2^31 ms after it. */
  lemma DeadlineTestIsRight(now: nat, due: nat)
    requires -(HALF_WRAP as int) <= now - due < HALF_WRAP
    ensures DeadlineReached(now % TICKS_WRAP, due % TICKS_WRAP) <==> now >= due
  {
    ElapsedIsTrueDifference(now, due);
    if now < due {
      assert (now - due) % TICKS_WRAP == now - due + TICKS_WRAP;
    }
  }

  /** A wait of `ticks` looks overdue the moment it begins exactly when it is zero or longer than 2^31 ms. */
  lemma OverdueAtOnceIff(now: nat, ticks: nat)
    requires ticks < TICKS_WRAP
    ensures DeadlineReached(now % TICKS_WRAP, (now + ticks) % TICKS_WRAP) <==> ticks == 0 || ticks > HALF_WRAP
  {
    ElapsedIsTrueDifference(now, now + ticks);
    if ticks > 0 {
      assert (now - (now + ticks)) % TICKS_WRAP == TICKS_WRAP - ticks;
    }
  }

  // ----- timely runs

  /** Waits of at most 2^31 ticks, or for ever; clock advances of at most 2^31 ms. */
  predicate Timely(s: Step) {
    match s
    case DoSend(_, _, _, _, ticks) => ticks <= HALF_WRAP || ticks == MAX_DELAY
    case DoReceive(_, _, ticks) => ticks <= HALF_WRAP || ticks == MAX_DELAY
    case DoTake(_, _, ticks) => ticks <= HALF_WRAP || ticks == MAX_DELAY
    case DoDelay(_, ticks) => ticks <= HALF_WRAP
    case DoAdvance(elapsed, _) => elapsed <= 1000 * HALF_WRAP
    case _ => true
  }

  /** A blocked timed wait is not due yet, and not further off than the clock can tell. */
  predicate PendingTask(t: Task, micros: nat) {
    t.blocked && t.wait.timed ==> Millis(micros) < t.wait.due <= Millis(micros) + HALF_WRAP
  }

  ghost predicate Pending(k: Kernel) {
    forall i {:trigger k.tasks[i]} :: 0 <= i < |k.tasks| ==> PendingTask(k.tasks[i], k.micros)
  }

  /** The only task that can have begun a wait in this step is the one that took it. */
  lemma OthersPending(k: Kernel, r: Kernel, scope: Scope, i: nat)
    requires TasksOk(k) && TasksOk(r) && Pending(k) && Onward(k, r, scope) && !scope.late
    requires i < |r.tasks| && !(scope.waits && Some(Worker(i)) == scope.actor)
    ensures PendingTask(r.tasks[i], r.micros)
  {
    assert TaskOk(r, i);
    if i < |k.tasks| {
      assert TaskOk(k, i);
      assert PendingTask(k.tasks[i], k.micros);
      assert scope.waits ==> BystandsAt(i, k.tasks[i], r.tasks[i], scope);
    }
  }

  lemma BlockedInPending(k: Kernel, c: nat, op: Op, ticks: nat)
    requires c < |k.tasks| && 0 < ticks && (ticks <= HALF_WRAP || (ticks == MAX_DELAY && !op.DelayOp?))
    ensures PendingTask(Dispatch(BlockIn(k, c, op, ticks)).tasks[c], k.micros)
  {
  }

  lemma WaitOnPending(k: Kernel, c: nat, op: Op, ticks: nat)
    requires c < |k.tasks| && 0 < ticks && (ticks <= HALF_WRAP || (ticks == MAX_DELAY && !op.DelayOp?))
    ensures c < |WaitOn(k, c, op, ticks).tasks| && PendingTask(WaitOn(k, c, op, ticks).tasks[c], k.micros)
  {
    hide NextRunnable;
    BlockedInPending(k, c, op, ticks);
  }

  /** A thread in its own code is in no timed wait, and wakes others without entering one. */
  predicate OutsideTimedWait(k: Kernel, th: Thread) {
    IsThread(k, th) && (th.Worker? ==> !k.tasks[th.id].blocked || !k.tasks[th.id].wait.timed)
  }

  lemma PublishFree(k: Kernel, th: Thread, q: nat, kind: WaitKind)
    requires OutsideTimedWait(k, th)
    ensures OutsideTimedWait(Publish(k, th, q, kind), th)
  {
    var released := ReleaseQueueWaiter(k, q, kind);
    assert OutsideTimedWait(Dispatch(released), th);
    hide ReleaseQueueWaiter, Dispatch;
    PreemptFree(Dispatch(released), th, Some(q));
  }

  lemma PreemptFree(k: Kernel, th: Thread, use: Option<nat>)
    requires OutsideTimedWait(k, th)
    ensures OutsideTimedWait(Preempt(k, th, use), th)
  {
  }

  lemma CallerFree(k: Kernel, th: Thread)
    requires KernelOk(k) && Calls(k, th)
    ensures OutsideTimedWait(k, th)
  {
    if th.Worker? { Facts(k, th.id); }
  }

  lemma SendPending(k: Kernel, s: Step)
    requires KernelOk(k) && s.DoSend? && s.th.Worker? && Enabled(k, s) && Timely(s)
    ensures s.th.id < |Next(k, s).tasks| && PendingTask(Next(k, s).tasks[s.th.id], k.micros)
  {
    hide NextRunnable, KernelOk, WaitOn, Publish;
    var DoSend(th, q, item, front, ticks) := s;
    CallerFree(k, th);
    if ticks > 0 { WaitOnPending(k, th.id, SendOp(q, item, front), ticks); }
    PublishFree(Push(k, q, item, front), th, q, Receiving);
  }

  lemma ReceivePending(k: Kernel, s: Step)
    requires KernelOk(k) && s.DoReceive? && s.th.Worker? && Enabled(k, s) && Timely(s)
    ensures s.th.id < |Next(k, s).tasks| && PendingTask(Next(k, s).tasks[s.th.id], k.micros)
  {
    var DoReceive(th, q, ticks) := s;
    CallerFree(k, th);
    hide KernelOk, WaitOn, Publish;
    if ticks > 0 { WaitOnPending(k, th.id, ReceiveOp(q), ticks); }
    if k.queues[q].items != [] { PublishFree(Pop(k, q), th, q, Sending); }
  }

  lemma TakePending(k: Kernel, s: Step)
    requires KernelOk(k) && s.DoTake? && Enabled(k, s) && Timely(s)
    ensures s.c < |Next(k, s).tasks| && PendingTask(Next(k, s).tasks[s.c], k.micros)
  {
    CallerFree(k, Worker(s.c));
    hide KernelOk, WaitOn;
    if s.ticks > 0 { WaitOnPending(k, s.c, TakeOp(s.clear), s.ticks); }
  }

  lemma DelayPending(k: Kernel, s: Step)
    requires KernelOk(k) && s.DoDelay? && Enabled(k, s) && Timely(s)
    ensures s.c < |Next(k, s).tasks| && PendingTask(Next(k, s).tasks[s.c], k.micros)
  {
    var DoDelay(c, ticks) := s;
    CallerFree(k, Worker(c));
    hide KernelOk, BlockIn, PassThrough;
    if ticks == 0 {
      RequeueFree(k, c);
    } else if StoppingThread(k, Worker(c)) {
      PassThroughFree(k, c, ticks);
    } else {
      BlockedInPending(k, c, DelayOp, ticks);
      StillThere(k, c, ticks);
    }
  }

  lemma RequeueFree(k: Kernel, c: nat)
    requires OutsideTimedWait(k, Worker(c))
    ensures OutsideTimedWait(Requeue(GiveUpTurn(k, c), c, Turn(None)), Worker(c))
  {
  }

  lemma PassThroughFree(k: Kernel, c: nat, ticks: nat)
    requires c < |k.tasks|
    ensures OutsideTimedWait(Dispatch(PassThrough(k, c, DelayOp, ticks, Turn(None))), Worker(c))
  {
  }

  lemma StillThere(k: Kernel, c: nat, ticks: nat)
    requires c < |k.tasks|
    ensures |BlockIn(k, c, DelayOp, ticks).tasks| == |k.tasks| && BlockIn(k, c, DelayOp, ticks).micros == k.micros
  {
  }

  /** Steps that begin a timed wait begin a timely one. */
  lemma WaitPending(k: Kernel, s: Step)
    requires KernelOk(k) && Enabled(k, s) && Timely(s) && ScopeOf(s).waits && ScopeOf(s).actor.value.Worker?
    ensures ScopeOf(s).actor.value.id < |Next(k, s).tasks|
    ensures PendingTask(Next(k, s).tasks[ScopeOf(s).actor.value.id], k.micros)
  {
    hide KernelOk, Next, Enabled, PendingTask;
    match s
    case DoSend(_, _, _, _, _) => SendPending(k, s);
    case DoReceive(_, _, _) => ReceivePending(k, s);
    case DoTake(_, _, _) => TakePending(k, s);
    case DoDelay(_, _) => DelayPending(k, s);
  }

  /** A clock advance within half a turn of the clock releases exactly the waits that became due. */
  lemma AdvancePending(k: Kernel, elapsed: nat, due: bool, i: nat)
    requires KernelOk(k) && Pending(k) && elapsed <= 1000 * HALF_WRAP && i < |k.tasks|
    ensures i < |Advance(k, elapsed, due).tasks| && PendingTask(Advance(k, elapsed, due).tasks[i], k.micros + elapsed)
    ensures k.tasks[i].blocked && k.tasks[i].wait.timed ==>
              (Advance(k, elapsed, due).tasks[i].blocked <==> Millis(k.micros + elapsed) < k.tasks[i].wait.due)
  {
    hide KernelOk, TimerDue, TaskOk, InUse;
    Facts(k, i);
    assert PendingTask(k.tasks[i], k.micros);
    var later := ReleaseDue(k.(micros := k.micros + elapsed));
    assert i < |later.tasks|;
    DuePending(k, elapsed, i);
    TimerKeepsWaits(later, due, i);
    TimerKeepsWaits(later, due, i);
  }

  lemma DuePending(k: Kernel, elapsed: nat, i: nat)
    requires i < |k.tasks| && TaskOk(k, i) && PendingTask(k.tasks[i], k.micros) && elapsed <= 1000 * HALF_WRAP
    ensures var later := ReleaseDue(k.(micros := k.micros + elapsed));
            && PendingTask(later.tasks[i], k.micros + elapsed)
            && (k.tasks[i].blocked && k.tasks[i].wait.timed ==>
                  (later.tasks[i].blocked <==> Millis(k.micros + elapsed) < k.tasks[i].wait.due))
  {
    var t := k.tasks[i];
    if t.blocked && t.wait.timed {
      assert i > 0;
      DeadlineTestIsRight(Millis(k.micros + elapsed), t.wait.due);
    }
  }

  lemma TimerKeepsWaits(k: Kernel, due: bool, i: nat)
    requires i < |k.tasks|
    ensures i < |TimerDue(k, due).tasks| && TimerDue(k, due).tasks[i].blocked == k.tasks[i].blocked
    ensures TimerDue(k, due).tasks[i].wait == k.tasks[i].wait
  {
  }

  lemma StepPending(k: Kernel, s: Step)
    requires KernelOk(k) && Enabled(k, s) && Pending(k) && Timely(s)
    ensures Pending(Next(k, s))
  {
    var r := Next(k, s);
    StepKeeps(k, s);
    StepOnward(k, s);
    hide KernelOk, Next, Enabled, PendingTask, Onward, Timely;
    forall i | 0 <= i < |r.tasks| ensures PendingTask(r.tasks[i], r.micros) {
      if s.DoAdvance? { SameTaskCount(k, s); AdvanceStep(k, s, i); } else { TaskStepPending(k, s, i); }
    }
  }

  lemma TaskStepPending(k: Kernel, s: Step, i: nat)
    requires KernelOk(k) && Enabled(k, s) && Pending(k) && Timely(s) && !s.DoAdvance?
    requires KernelOk(Next(k, s)) && Onward(k, Next(k, s), ScopeOf(s)) && i < |Next(k, s).tasks|
    ensures PendingTask(Next(k, s).tasks[i], Next(k, s).micros)
  {
    hide Next, Enabled, StampsOk, MutexesOk, JoinsOk, QueuesOk, TasksOk, PendingTask, Onward, Pending;
    if ScopeOf(s).waits && ScopeOf(s).actor == Some(Worker(i)) {
      WaitPending(k, s);
      SameMicros(k, Next(k, s), ScopeOf(s));
    } else {
      OthersPending(k, Next(k, s), ScopeOf(s), i);
    }
  }

  lemma SameMicros(k: Kernel, r: Kernel, scope: Scope)
    requires Onward(k, r, scope) && !scope.late
    ensures r.micros == k.micros
  {
  }

  lemma SameTaskCount(k: Kernel, s: Step)
    requires s.DoAdvance? && Enabled(k, s)
    ensures |Next(k, s).tasks| == |k.tasks|
  {
  }

  lemma AdvanceStep(k: Kernel, s: Step, i: nat)
    requires KernelOk(k) && Pending(k) && s.DoAdvance? && Enabled(k, s) && Timely(s) && i < |k.tasks|
    ensures i < |Next(k, s).tasks| && PendingTask(Next(k, s).tasks[i], Next(k, s).micros)
  {
    AdvancePending(k, s.elapsed, s.due, i);
    hide KernelOk;
  }

  // ----- what a waiting task can rely on

  ghost predicate IsTimelyRun(k: Kernel, run: seq<Step>) {
    IsRun(k, run) && forall i :: 0 <= i < |run| ==> Timely(run[i])
  }

  lemma {:induction false} RunPending(k: Kernel, run: seq<Step>)
    requires KernelOk(k) && Pending(k) && IsTimelyRun(k, run)
    ensures KernelOk(After(k, run)) && Pending(After(k, run))
    decreases |run|
  {
    hide KernelOk, Pending, Timely;
    if run != [] {
      StepKeeps(k, run[0]);
      StepPending(k, run[0]);
      RunPending(Next(k, run[0]), run[1..]);
    }
  }

  /** After every timely run from boot no blocked task is overdue, however often the 32-bit clock wrapped: each timed
      wait that is still pending ends in the future, at most 2^31 ms away, and the wrapped test agrees. */
  lemma NobodyOverdue(start: Kernel, run: seq<Step>, i: nat)
    requires Initial(start) && IsTimelyRun(start, run)
    requires i < |After(start, run).tasks| && After(start, run).tasks[i].blocked
             && After(start, run).tasks[i].wait.timed
    ensures var k := After(start, run); var w := k.tasks[i].wait;
            && Millis(k.micros) < w.due <= Millis(k.micros) + HALF_WRAP
            && w.deadline == w.due % TICKS_WRAP && !DeadlineReached(Clock(k.micros), w.deadline)
  {
    InitialOk(start);
    RunPending(start, run);
    var k := After(start, run);
    Facts(k, i);
    assert PendingTask(k.tasks[i], k.micros);
    DeadlineTestIsRight(Millis(k.micros), k.tasks[i].wait.due);
  }

  /** The step ends task i's blocked wait with a timeout. */
  predicate TimesOut(k: Kernel, r: Kernel, i: nat) {
    && i < |k.tasks| && i < |r.tasks| && k.tasks[i].blocked && k.tasks[i].pc.Wait?
    && !r.tasks[i].blocked && r.tasks[i].pc == k.tasks[i].pc && r.tasks[i].wait.result == Timeout
  }

  /** Without any bound on waits or clock steps: a blocked wait times out in a step exactly if it is a clock step that
      ends, whole turns of the clock aside, less than half a turn after the deadline. */
  lemma TimesOutIff(k: Kernel, s: Step, i: nat)
    requires KernelOk(k) && Enabled(k, s)
    requires 0 < i < |k.tasks| && k.tasks[i].blocked && k.tasks[i].pc.Wait? && k.tasks[i].wait.timed
    ensures TimesOut(k, Next(k, s), i) <==>
              s.DoAdvance? && (Next(k, s).micros / 1000 - k.tasks[i].wait.due) % 0x1_0000_0000 < 0x8000_0000
  {
    hide KernelOk, Enabled, Next, Onward, TimesOut;
    if s.DoAdvance? {
      AdvanceTimesOut(k, s, i);
    } else {
      StepOnward(k, s);
      NoOtherTimeout(k, s, i);
    }
  }

  /** The wrapped test as a statement about the true lateness of the wait. */
  lemma OverdueIff(t: Task, micros: nat)
    requires WaitOk(t) && t.blocked && t.wait.timed
    ensures IsOverdue(Clock(micros), t) <==> Lateness(t, micros) % TICKS_WRAP < HALF_WRAP
  {
    ElapsedIsTrueDifference(Millis(micros), t.wait.due);
  }

  /** Milliseconds since the deadline, negative before it. */
  function Lateness(t: Task, micros: nat): int { Millis(micros) - t.wait.due }

  lemma AheadIsNotLate(late: int)
    requires -(HALF_WRAP as int) <= late
    ensures late < 0 ==> late % TICKS_WRAP >= HALF_WRAP
    ensures late < HALF_WRAP ==> (late % TICKS_WRAP < HALF_WRAP <==> late >= 0)
  {
    if late < 0 { assert late % TICKS_WRAP == late + TICKS_WRAP; }
  }

  lemma AdvanceIsNext(k: Kernel, s: Step)
    requires s.DoAdvance? && Enabled(k, s)
    ensures Next(k, s) == Advance(k, s.elapsed, s.due)
  {
    hide Advance;
  }

  lemma AdvancedTimesOut(k: Kernel, elapsed: nat, due: bool, i: nat)
    requires 0 < i < |k.tasks| && k.tasks[i].blocked && k.tasks[i].pc.Wait?
    ensures Advance(k, elapsed, due).micros == k.micros + elapsed
    ensures TimesOut(k, Advance(k, elapsed, due), i) <==> IsOverdue(Clock(k.micros + elapsed), k.tasks[i])
  {
    hide Advance, IsOverdue, Clock;
    AdvancedTask(k, elapsed, due, i);
  }

  lemma Waiting(k: Kernel, i: nat)
    requires KernelOk(k) && i < |k.tasks|
    ensures WaitOk(k.tasks[i])
  {
    Facts(k, i);
  }

  lemma AdvanceTimesOut(k: Kernel, s: Step, i: nat)
    requires KernelOk(k) && s.DoAdvance? && Enabled(k, s)
    requires 0 < i < |k.tasks| && k.tasks[i].blocked && k.tasks[i].pc.Wait? && k.tasks[i].wait.timed
    ensures Next(k, s).micros == k.micros + s.elapsed
    ensures TimesOut(k, Next(k, s), i) <==> Lateness(k.tasks[i], k.micros + s.elapsed) % TICKS_WRAP < HALF_WRAP
  {
    hide KernelOk, Advance, IsOverdue, Lateness, Next, Enabled, WaitOk, Clock, TimesOut;
    AdvanceIsNext(k, s);
    Waiting(k, i);
    AdvancedTimesOut(k, s.elapsed, s.due, i);
    OverdueIff(k.tasks[i], k.micros + s.elapsed);
  }

  /** When every wait lies ahead as far as the clock can tell, a clock step of any length leaves a wait blocked exactly
      if it ends before the deadline, or so long after it that the signed comparison reads it as ahead again. */
  lemma StillBlockedIff(k: Kernel, elapsed: nat, due: bool, i: nat)
    requires KernelOk(k) && Pending(k) && 0 < i < |k.tasks| && k.tasks[i].blocked && k.tasks[i].wait.timed
    ensures i < |Advance(k, elapsed, due).tasks|
    ensures var late := Millis(k.micros + elapsed) - k.tasks[i].wait.due;
            Advance(k, elapsed, due).tasks[i].blocked <==> late < 0 || late % TICKS_WRAP >= HALF_WRAP
  {
    Facts(k, i);
    OverdueIff(k.tasks[i], k.micros + elapsed);
    PendingLateness(k, elapsed, i);
    AdvancedTask(k, elapsed, due, i);
    hide KernelOk, Pending, Advance, IsOverdue;
    AheadIsNotLate(Lateness(k.tasks[i], k.micros + elapsed));
  }

  lemma PendingLateness(k: Kernel, elapsed: nat, i: nat)
    requires Pending(k) && i < |k.tasks| && k.tasks[i].blocked && k.tasks[i].wait.timed
    ensures var late := Lateness(k.tasks[i], k.micros + elapsed);
            -(HALF_WRAP as int) <= late < Millis(k.micros + elapsed) - Millis(k.micros)
  {
    assert PendingTask(k.tasks[i], k.micros);
  }

  /** In timely runs a wait times out in the clock step that reaches its deadline and in no other. */
  lemma TimesOutExactlyWhenDue(k: Kernel, s: Step, i: nat)
    requires KernelOk(k) && Pending(k) && Enabled(k, s) && Timely(s)
    requires 0 < i < |k.tasks| && k.tasks[i].blocked && k.tasks[i].pc.Wait? && k.tasks[i].wait.timed
    ensures TimesOut(k, Next(k, s), i) <==> s.DoAdvance? && k.tasks[i].wait.due <= Millis(Next(k, s).micros)
  {
    TimesOutIff(k, s, i);
    if s.DoAdvance? {
      AdvanceTimesOut(k, s, i);
      PendingLateness(k, s.elapsed, i);
      hide KernelOk, Pending, Enabled, Next, TimesOut;
      AheadIsNotLate(Lateness(k.tasks[i], k.micros + s.elapsed));
    }
  }

  lemma NoOtherTimeout(k: Kernel, s: Step, i: nat)
    requires Enabled(k, s) && Onward(k, Next(k, s), ScopeOf(s)) && !s.DoAdvance?
    requires 0 < i < |k.tasks| && k.tasks[i].blocked && k.tasks[i].pc.Wait?
    ensures !TimesOut(k, Next(k, s), i)
  {
    hide Enabled, Next;
    if s == DoResume(i) {
      ResumedIsNotTimedOut(k, s, i);
    } else {
      ReleasedIsNoActor(k, s, i);
      assert BystandsAt(i, k.tasks[i], Next(k, s).tasks[i], ScopeOf(s));
    }
  }

  lemma ResumedIsNotTimedOut(k: Kernel, s: Step, i: nat)
    requires s == DoResume(i) && Enabled(k, s)
    ensures i < |Next(k, s).tasks| && Next(k, s).tasks[i].pc != k.tasks[i].pc
  {
    ResumedLeaves(k, i);
    hide Resume;
  }

  lemma ResumedLeaves(k: Kernel, c: nat)
    requires c < |k.tasks| && k.tasks[c].pc.Wait?
    ensures c < |Resume(k, c).tasks| && !Resume(k, c).tasks[c].pc.Wait?
  {
    var woken := Dispatch(Awaken(k, c));
    assert |woken.tasks| == |k.tasks| && woken.tasks[c].pc == Code;
    hide Publish, Awaken, Dispatch;
    match k.tasks[c].pc.op
    case SendOp(q, item, front) =>
      if q < |woken.queues| { PublishStays(Push(woken, q, item, front), c, q, Receiving); }
    case ReceiveOp(q) =>
      if q < |woken.queues| && woken.queues[q].items != [] { PublishStays(Pop(woken, q), c, q, Sending); }
    case TakeOp(clear) =>
    case DelayOp =>
  }

  lemma PublishStays(k: Kernel, c: nat, q: nat, kind: WaitKind)
    requires c < |k.tasks| && k.tasks[c].pc == Code
    ensures c < |Publish(k, Worker(c), q, kind).tasks| && !Publish(k, Worker(c), q, kind).tasks[c].pc.Wait?
  {
    var released := ReleaseQueueWaiter(k, q, kind);
    assert |Dispatch(released).tasks| == |k.tasks| && Dispatch(released).tasks[c].pc == Code;
    hide ReleaseQueueWaiter, Dispatch, Preempt;
    PreemptStays(Dispatch(released), c, Some(q));
  }

  lemma PreemptStays(k: Kernel, c: nat, use: Option<nat>)
    requires c < |k.tasks| && k.tasks[c].pc == Code
    ensures c < |Preempt(k, Worker(c), use).tasks| && !Preempt(k, Worker(c), use).tasks[c].pc.Wait?
  {
    hide NextRunnable;
  }

  lemma AdvancedTask(k: Kernel, elapsed: nat, due: bool, i: nat)
    requires 0 < i < |k.tasks|
    ensures var r := Advance(k, elapsed, due);
            && i < |r.tasks| && r.micros == k.micros + elapsed && r.tasks[i].pc == k.tasks[i].pc
            && r.tasks[i].wait == (if IsOverdue(Clock(r.micros), k.tasks[i]) then Awake(k.tasks[i].wait, Timeout)
                                   else k.tasks[i].wait)
            && (r.tasks[i].blocked <==> k.tasks[i].blocked && !IsOverdue(Clock(r.micros), k.tasks[i]))
  {
    hide TimerDue, IsOverdue, Clock;
    var later := ReleaseDue(k.(micros := k.micros + elapsed));
    TimerKeepsTask(later, due, i);
  }

  lemma TimerKeepsTask(k: Kernel, due: bool, i: nat)
    requires 0 < i < |k.tasks|
    ensures var r := TimerDue(k, due); |r.tasks| == |k.tasks| && r.tasks[i] == k.tasks[i] && r.micros == k.micros
  {
  }

  /** A wait that was released keeps its result - a wake-up never turns into a timeout, nor a timeout into a wake-up -
      through every run in which the task does not resume. */
  lemma {:induction false} ResultIsFinal(k: Kernel, run: seq<Step>, i: nat)
    requires KernelOk(k) && IsRun(k, run) && forall j :: 0 <= j < |run| ==> run[j] != DoResume(i)
    requires 0 < i < |k.tasks| && k.tasks[i].pc.Wait? && !k.tasks[i].blocked
    ensures i < |After(k, run).tasks| && After(k, run).tasks[i].pc == k.tasks[i].pc
    ensures !After(k, run).tasks[i].blocked && After(k, run).tasks[i].wait.result == k.tasks[i].wait.result
    decreases |run|
  {
    if run != [] {
      var s := run[0];
      StepKeeps(k, s);
      StepOnward(k, s);
      ReleasedIsNoActor(k, s, i);
      hide KernelOk, Next, Enabled;
      assert BystandsAt(i, k.tasks[i], Next(k, s).tasks[i], ScopeOf(s));
      ResultIsFinal(Next(k, s), run[1..], i);
    }
  }

  lemma ReleasedIsNoActor(k: Kernel, s: Step, i: nat)
    requires Enabled(k, s) && 0 < i < |k.tasks| && k.tasks[i].pc.Wait? && s != DoResume(i)
    ensures ScopeOf(s).actor != Some(Worker(i))
  {
  }

  // ----- waits that are too long for the signed comparison

  /** The call finds nothing ready and blocks task `c` for `ticks`. */
  predicate BlocksFor(k: Kernel, s: Step, c: nat, ticks: nat) {
    && c < |k.tasks| && !StoppingThread(k, Worker(c)) && 0 < ticks < MAX_DELAY
    && match s
       case DoSend(th, q, _, _, t) =>
         th == Worker(c) && t == ticks && q < |k.queues| && !k.queues[q].deleted
           && |k.queues[q].items| >= k.queues[q].capacity
       case DoReceive(th, q, t) =>
         th == Worker(c) && t == ticks && q < |k.queues| && !k.queues[q].deleted && k.queues[q].items == []
       case DoTake(d, _, t) => d == c && t == ticks && k.tasks[c].notes.count == 0
       case _ => false
  }

  function OpOf(s: Step): Op
    requires s.DoSend? || s.DoReceive? || s.DoTake?
  {
    match s
    case DoSend(_, q, item, front, _) => SendOp(q, item, front)
    case DoReceive(_, q, _) => ReceiveOp(q)
    case DoTake(_, clear, _) => TakeOp(clear)
  }

  /** Waits longer than 2^31 ticks, other than for ever, do end early: a send, a receive or a notification take that
      blocks for `ticks` is timed out by the very next clock step, even one of no length, exactly when ticks exceeds
      2^31. */
  lemma TooLongTimesOutAtOnceIff(k: Kernel, s: Step, c: nat, ticks: nat, due: bool)
    requires Enabled(k, s) && BlocksFor(k, s, c, ticks)
    ensures var r := Next(k, s);
            && 0 < c < |r.tasks| && r.tasks[c].blocked && r.tasks[c].pc == Wait(OpOf(s)) && r.micros == k.micros
            && (TimesOut(r, Advance(r, 0, due), c) <==> ticks > HALF_WRAP)
  {
    BlockedFor(k, s, c, ticks);
    BlockedWait(k, c, OpOf(s), ticks);
    hide Next, Advance, Enabled, BlockIn, Dispatch;
    ZeroAdvance(Next(k, s), c, k.micros, ticks, due);
  }

  /** A delay of more than 2^31 ticks does not even block: the task just queues for the turn again. */
  lemma TooLongDelayReturnsAtOnceIff(k: Kernel, c: nat, ticks: nat)
    requires Enabled(k, DoDelay(c, ticks)) && !StoppingThread(k, Worker(c)) && 0 < ticks < TICKS_WRAP
    ensures var r := Delay(k, c, ticks);
            && c < |r.tasks|
            && if ticks > HALF_WRAP then r.tasks[c].pc == Turn(None) && !r.tasks[c].blocked && r.tasks[c].runnable
               else r.tasks[c].pc == Wait(DelayOp) && r.tasks[c].blocked
  {
    OverdueAtOnceIff(Millis(k.micros), ticks);
    DelayedTask(k, c, ticks);
    WrappedDeadline(Millis(k.micros), ticks);
  }

  lemma DelayedTask(k: Kernel, c: nat, ticks: nat)
    requires Enabled(k, DoDelay(c, ticks)) && !StoppingThread(k, Worker(c)) && 0 < ticks
    ensures var r := Delay(k, c, ticks);
            && c < |r.tasks|
            && if DeadlineReached(Clock(k.micros), Clock(k.micros) + ticks)
               then r.tasks[c].pc == Turn(None) && !r.tasks[c].blocked && r.tasks[c].runnable
               else r.tasks[c].pc == Wait(DelayOp) && r.tasks[c].blocked
  {
    hide NextRunnable, DeadlineReached;
  }

  lemma WrappedDeadline(now: nat, ticks: nat)
    ensures DeadlineReached(now % TICKS_WRAP, now % TICKS_WRAP + ticks) <==>
              DeadlineReached(now % TICKS_WRAP, (now + ticks) % TICKS_WRAP)
  {
    assert (now % TICKS_WRAP - (now % TICKS_WRAP + ticks)) % TICKS_WRAP ==
             (now % TICKS_WRAP - (now + ticks) % TICKS_WRAP) % TICKS_WRAP;
  }

  lemma ZeroAdvance(r: Kernel, c: nat, micros: nat, ticks: nat, due: bool)
    requires 0 < c < |r.tasks| && r.tasks[c].blocked && r.tasks[c].pc.Wait? && r.tasks[c].wait.timed
             && r.micros == micros
    requires 0 < ticks < TICKS_WRAP && r.tasks[c].wait.deadline == (Millis(micros) + ticks) % TICKS_WRAP
    requires r.tasks[c].wait.result == NoResult
    ensures TimesOut(r, Advance(r, 0, due), c) <==> ticks > HALF_WRAP
  {
    hide Advance;
    OverdueAtOnceIff(Millis(micros), ticks);
    AdvancedTask(r, 0, due, c);
  }

  lemma BlockedFor(k: Kernel, s: Step, c: nat, ticks: nat)
    requires Enabled(k, s) && BlocksFor(k, s, c, ticks)
    ensures c > 0 && k.tasks[c].pc == Code && Next(k, s) == Dispatch(BlockIn(k, c, OpOf(s), ticks))
  {
    hide BlockIn, Dispatch;
  }

  lemma BlockedWait(k: Kernel, c: nat, op: Op, ticks: nat)
    requires 0 < c < |k.tasks| && k.tasks[c].pc == Code && 0 < ticks < MAX_DELAY
    ensures var r := Dispatch(BlockIn(k, c, op, ticks));
            && |r.tasks| == |k.tasks| && r.tasks[c].blocked && r.tasks[c].pc == Wait(op) && r.tasks[c].wait.timed
            && r.micros == k.micros && r.tasks[c].wait.due == Millis(k.micros) + ticks
            && r.tasks[c].wait.deadline == (Millis(k.micros) + ticks) % TICKS_WRAP && r.tasks[c].wait.result == NoResult
  {
    hide NextRunnable;
    var r := Dispatch(BlockIn(k, c, op, ticks));
    assert r.tasks[c].wait.deadline == (Clock(k.micros) + ticks) % TICKS_WRAP;
    hide BlockIn;
    assert (Clock(k.micros) + ticks) % TICKS_WRAP == (Millis(k.micros) + ticks) % TICKS_WRAP;
  }
}
