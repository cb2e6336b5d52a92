/** What each step does that a caller can see, in the fields of the state: contents, counts, owners, waits and
    results. */
module KernelEffects {
  import opened Selection
  import opened KernelState
  import opened KernelSteps
  import opened KernelMachine
  import opened KernelInvariant
  import opened KernelPrimitives
  import opened KernelSafety
  import opened KernelProgress
  import opened KernelQueues
  import opened KernelDispatch

  // ----- queues

  /** No other queue's contents or histories changed. */
  predicate OthersKept(k: Kernel, r: Kernel, q: nat) {
    |r.queues| == |k.queues| && forall p :: 0 <= p < |k.queues| && p != q ==> SameItems(k.queues[p], r.queues[p])
  }

  /** The queue took the item, at the end it was sent to. */
  predicate Took(x: Queue, y: Queue, item: Item, front: bool) {
    && y.items == (if front then [item] + x.items else x.items + [item])
    && y.accepted == x.accepted + [item] && y.received == x.received && y.discarded == x.discarded
    && y.capacity == x.capacity && y.deleted == x.deleted
  }

  /** The queue handed out its first item. */
  predicate Gave(x: Queue, y: Queue) {
    && x.items != [] && x.items == [x.items[0]] + y.items
    && y.received == x.received + [x.items[0]] && y.accepted == x.accepted && y.discarded == x.discarded
    && y.capacity == x.capacity && y.deleted == x.deleted
  }

  /** The task went to sleep inside a call on the queue. */
  predicate Sleeps(k: Kernel, r: Kernel, c: nat, op: Op, ticks: nat) {
    && c < |r.tasks| && r.tasks[c].blocked && r.tasks[c].pc == Wait(op)
    && r.tasks[c].wait.queue == QueueOf(op) && r.tasks[c].wait.kind == KindOf(op)
    && (r.tasks[c].wait.timed <==> op.DelayOp? || ticks != MAX_DELAY)
    && r.tasks[c].wait.due == k.micros / 1000 + ticks
  }

  lemma PushTakes(k: Kernel, th: Thread, q: nat, item: Item, front: bool)
    requires IsThread(k, th) && q < |k.queues|
    ensures var r := Publish(Push(k, q, item, front), th, q, Receiving);
            OthersKept(k, r, q) && Took(k.queues[q], r.queues[q], item, front)
  {
    hide Publish;
    PublishItems(Push(k, q, item, front), th, q, Receiving);
  }

  lemma PopGives(k: Kernel, th: Thread, q: nat)
    requires IsThread(k, th) && q < |k.queues| && k.queues[q].items != []
    ensures var r := Publish(Pop(k, q), th, q, Sending);
            OthersKept(k, r, q) && Gave(k.queues[q], r.queues[q])
  {
    hide Publish;
    PublishItems(Pop(k, q), th, q, Sending);
  }

  lemma WaitsOrPasses(k: Kernel, c: nat, op: Op, ticks: nat)
    requires c < |k.tasks| && k.tasks[c].pc == Code && !op.DelayOp?
    ensures var r := WaitOn(k, c, op, ticks);
            && |r.queues| == |k.queues| && |r.tasks| == |k.tasks|
            && (forall p :: 0 <= p < |k.queues| ==> SameItems(k.queues[p], r.queues[p]))
            && (if StoppingThread(k, Worker(c)) then r.tasks[c].pc == Code else Sleeps(k, r, c, op, ticks))
  {
    WaitOnItems(k, c, op, ticks);
    if StoppingThread(k, Worker(c)) { PassesThrough(k, c, op, ticks); } else { GoesToSleep(k, c, op, ticks); }
    hide PassThrough, BlockIn, Dispatch;
  }

  lemma PassesThrough(k: Kernel, c: nat, op: Op, ticks: nat)
    requires c < |k.tasks| && k.tasks[c].pc == Code
    ensures var r := Dispatch(PassThrough(k, c, op, ticks, Code)); |r.tasks| == |k.tasks| && r.tasks[c].pc == Code
  {
    hide NextRunnable;
  }

  lemma GoesToSleep(k: Kernel, c: nat, op: Op, ticks: nat)
    requires c < |k.tasks| && k.tasks[c].pc == Code
    ensures var r := Dispatch(BlockIn(k, c, op, ticks)); |r.tasks| == |k.tasks| && Sleeps(k, r, c, op, ticks)
  {
    hide NextRunnable;
  }

  /** A send puts the item in - at the back, or at the front if it was sent there - exactly if the caller is not
      stopping and the queue is live and has room; it waits exactly if there is no room, the queue is live and the
      caller, not stopping, allows it; otherwise it is refused. Only a send that puts something in changes any queue. */
  lemma SendEffect(k: Kernel, s: Step)
    requires s.DoSend? && Enabled(k, s)
    ensures var r, x := Next(k, s), k.queues[s.queue];
            var room, stops := |x.items| < x.capacity, StoppingThread(k, s.th);
            && OthersKept(k, r, s.queue)
            && (if room && !x.deleted && !stops then Took(x, r.queues[s.queue], s.item, s.front)
                else SameItems(x, r.queues[s.queue]))
            && (!room && !x.deleted && !stops && s.ticks != 0 ==>
                  s.th.Worker? && Sleeps(k, r, s.th.id, SendOp(s.queue, s.item, s.front), s.ticks))
            && (room || x.deleted || stops || s.ticks == 0 ==> IsThread(r, s.th) && !PcOf(r, s.th).Wait?)
  {
    var DoSend(th, q, item, front, ticks) := s;
    SendIs(k, s);
    PushTakes(k, th, q, item, front);
    PublishNoWait(Push(k, q, item, front), th, q, Receiving);
    if th.Worker? { WaitsOrPasses(k, th.id, SendOp(q, item, front), ticks); }
    hide Publish, WaitOn, Next, Push;
  }

  lemma SendIs(k: Kernel, s: Step)
    requires s.DoSend? && Enabled(k, s)
    ensures Next(k, s) == Send(k, s.th, s.queue, s.item, s.front, s.ticks)
  {
    hide Send;
  }

  /** The caller of a call that does not wait is not left waiting. */
  lemma PublishNoWait(k: Kernel, th: Thread, q: nat, kind: WaitKind)
    requires Calls(k, th)
    ensures IsThread(Publish(k, th, q, kind), th) && !PcOf(Publish(k, th, q, kind), th).Wait?
  {
    hide NextRunnable;
  }

  /** A receive takes the first item out exactly if the caller is not stopping and the queue is live and not empty; it
      waits exactly if the queue is empty and live and the caller, not stopping, allows it. */
  lemma ReceiveEffect(k: Kernel, s: Step)
    requires s.DoReceive? && Enabled(k, s)
    ensures var r, x := Next(k, s), k.queues[s.queue];
            var stops := StoppingThread(k, s.th);
            && OthersKept(k, r, s.queue)
            && (if x.items != [] && !x.deleted && !stops then Gave(x, r.queues[s.queue])
                else SameItems(x, r.queues[s.queue]))
            && (x.items == [] && !x.deleted && !stops && s.ticks != 0 ==>
                  s.th.Worker? && Sleeps(k, r, s.th.id, ReceiveOp(s.queue), s.ticks))
            && (x.items != [] || x.deleted || stops || s.ticks == 0 ==> IsThread(r, s.th) && !PcOf(r, s.th).Wait?)
  {
    var DoReceive(th, q, ticks) := s;
    ReceiveIs(k, s);
    if k.queues[q].items != [] {
      PopGives(k, th, q);
      PublishNoWait(Pop(k, q), th, q, Sending);
    }
    if th.Worker? { WaitsOrPasses(k, th.id, ReceiveOp(q), ticks); }
    hide Publish, WaitOn, Next, Pop;
  }

  lemma ReceiveIs(k: Kernel, s: Step)
    requires s.DoReceive? && Enabled(k, s)
    ensures Next(k, s) == Receive(k, s.th, s.queue, s.ticks)
  {
    hide Receive;
  }

  // ----- calls that resume

  predicate AllKept(k: Kernel, r: Kernel) {
    |r.queues| == |k.queues| && forall p :: 0 <= p < |k.queues| ==> SameItems(k.queues[p], r.queues[p])
  }

  /** One notification fewer, or none left. */
  predicate TookNotes(m: Notes, n: Notes, clear: bool) {
    && m.count > 0 && n.gives == m.gives && n.wraps == m.wraps
    && (if clear then n.count == 0 && n.cleared == m.cleared + m.count && n.singles == m.singles
        else n.count == m.count - 1 && n.singles == m.singles + 1 && n.cleared == m.cleared)
  }

  /** What a resumed call does: nothing is taken or put for a stopping task. A woken send puts its item into a live
      queue, a woken receive takes the first item of a live queue that has one, a notification take takes what is there;
      every other resumed call leaves contents and counts alone. */
  predicate Resumed(k: Kernel, r: Kernel, c: nat)
    requires c < |k.tasks| && k.tasks[c].pc.Wait?
  {
    var t := k.tasks[c];
    var stops := StoppingThread(k, Worker(c));
    var woken := t.wait.result == Ready && !stops;
    && c < |r.tasks| && !r.tasks[c].pc.Wait?
    && match t.pc.op
       case SendOp(q, item, front) =>
         && q < |k.queues| && r.tasks[c].notes == t.notes
         && if woken && !k.queues[q].deleted then OthersKept(k, r, q) && Took(k.queues[q], r.queues[q], item, front)
            else AllKept(k, r)
       case ReceiveOp(q) =>
         && q < |k.queues| && r.tasks[c].notes == t.notes
         && if woken && !k.queues[q].deleted && k.queues[q].items != []
            then OthersKept(k, r, q) && Gave(k.queues[q], r.queues[q]) else AllKept(k, r)
       case TakeOp(clear) =>
         && AllKept(k, r)
         && if !stops && t.notes.count > 0 then TookNotes(t.notes, r.tasks[c].notes, clear)
            else r.tasks[c].notes == t.notes
       case DelayOp => AllKept(k, r) && r.tasks[c].notes == t.notes
  }

  lemma ResumeEffect(k: Kernel, c: nat)
    requires KernelOk(k) && Enabled(k, DoResume(c))
    ensures Resumed(k, Resume(k, c), c)
  {
    Facts(k, c);
    AwokenContents(k, c);
    hide KernelOk, Resume, Resumed, TaskOk, Enabled;
    if StoppingThread(k, Worker(c)) { StoppedResumes(k, c); }
    else if k.tasks[c].pc.op.SendOp? { SendResumes(k, c); }
    else if k.tasks[c].pc.op.ReceiveOp? { ReceiveResumes(k, c); }
    else { OwnCallResumes(k, c); }
  }

  lemma StoppedResumes(k: Kernel, c: nat)
    requires c < |k.tasks| && k.tasks[c].pc.Wait? && StoppingThread(k, Worker(c))
    requires InUse(k.tasks[c].pc).Some? ==> InUse(k.tasks[c].pc).value < |k.queues|
    ensures Resumed(k, Resume(k, c), c)
  {
    AwokenContents(k, c);
    hide Dispatch, Awaken;
  }

  lemma SendResumes(k: Kernel, c: nat)
    requires c < |k.tasks| && k.tasks[c].pc.Wait? && k.tasks[c].pc.op.SendOp? && !StoppingThread(k, Worker(c))
    requires k.tasks[c].pc.op.queue < |k.queues|
    ensures Resumed(k, Resume(k, c), c)
  {
    hide Dispatch, Awaken, Publish, Push;
    var woken := Dispatch(Awaken(k, c));
    var SendOp(q, item, front) := k.tasks[c].pc.op;
    AwokenContents(k, c);
    PushTakes(woken, Worker(c), q, item, front);
    PushOnlyContents(woken, q, item, front);
    PublishCaller(Push(woken, q, item, front), c, q, Receiving);
  }

  lemma ReceiveResumes(k: Kernel, c: nat)
    requires c < |k.tasks| && k.tasks[c].pc.Wait? && k.tasks[c].pc.op.ReceiveOp? && !StoppingThread(k, Worker(c))
    requires k.tasks[c].pc.op.queue < |k.queues|
    ensures Resumed(k, Resume(k, c), c)
  {
    hide Dispatch, Awaken, Publish, Pop;
    var woken := Dispatch(Awaken(k, c));
    var q := k.tasks[c].pc.op.queue;
    AwokenContents(k, c);
    if woken.queues[q].items != [] {
      PopGives(woken, Worker(c), q);
      PopOnlyContents(woken, q);
      PublishCaller(Pop(woken, q), c, q, Sending);
    }
  }

  lemma OwnCallResumes(k: Kernel, c: nat)
    requires c < |k.tasks| && k.tasks[c].pc.Wait? && !StoppingThread(k, Worker(c))
    requires k.tasks[c].pc.op.TakeOp? || k.tasks[c].pc.op.DelayOp?
    ensures Resumed(k, Resume(k, c), c)
  {
    hide Dispatch, Awaken;
    AwokenContents(k, c);
  }

  lemma PushOnlyContents(k: Kernel, q: nat, item: Item, front: bool)
    requires q < |k.queues|
    ensures Push(k, q, item, front).tasks == k.tasks
  {
  }

  lemma PopOnlyContents(k: Kernel, q: nat)
    requires q < |k.queues| && k.queues[q].items != []
    ensures Pop(k, q).tasks == k.tasks
  {
  }

  lemma PublishCaller(k: Kernel, c: nat, q: nat, kind: WaitKind)
    requires c < |k.tasks| && k.tasks[c].pc == Code
    ensures var r := Publish(k, Worker(c), q, kind);
            c < |r.tasks| && !r.tasks[c].pc.Wait? && r.tasks[c].notes == k.tasks[c].notes
  {
    hide NextRunnable;
  }

  lemma AwokenContents(k: Kernel, c: nat)
    requires c < |k.tasks| && k.tasks[c].pc.Wait?
    ensures var r := Dispatch(Awaken(k, c));
            && AllKept(k, r) && |r.tasks| == |k.tasks| && r.tasks[c].pc == Code && r.tasks[c].notes == k.tasks[c].notes
  {
    AwakenItems(k, c);
    hide NextRunnable;
  }

  // ----- notifications

  /** A take finds the count, clears it or takes one off, and waits exactly if there is none, the caller allows it and
      is not stopping. */
  lemma TakeEffect(k: Kernel, s: Step)
    requires s.DoTake? && Enabled(k, s)
    ensures var r, n := Next(k, s), k.tasks[s.c].notes; var stops := StoppingThread(k, Worker(s.c));
            && AllKept(k, r) && |r.tasks| == |k.tasks|
            && (if n.count > 0 && !stops then TookNotes(n, r.tasks[s.c].notes, s.clear) else r.tasks[s.c].notes == n)
            && (n.count == 0 && !stops && s.ticks != 0 ==> Sleeps(k, r, s.c, TakeOp(s.clear), s.ticks))
            && (n.count > 0 || stops || s.ticks == 0 ==> r.tasks[s.c].pc == Code)
            && (forall i :: 0 <= i < |k.tasks| && i != s.c ==> r.tasks[i].notes == k.tasks[i].notes)
  {
    TakeIs(k, s);
    WaitsOrPasses(k, s.c, TakeOp(s.clear), s.ticks);
    WaitKeepsNotes(k, s.c, TakeOp(s.clear), s.ticks);
    hide WaitOn, Next;
  }

  lemma TakeIs(k: Kernel, s: Step)
    requires s.DoTake? && Enabled(k, s)
    ensures Next(k, s) == Take(k, s.c, s.clear, s.ticks)
  {
    hide Take;
  }

  predicate SameNotes(k: Kernel, r: Kernel) {
    |r.tasks| == |k.tasks| && forall i :: 0 <= i < |k.tasks| ==> r.tasks[i].notes == k.tasks[i].notes
  }

  lemma WaitKeepsNotes(k: Kernel, c: nat, op: Op, ticks: nat)
    requires c < |k.tasks|
    ensures SameNotes(k, WaitOn(k, c, op, ticks))
  {
    var passed, blocked := PassThrough(k, c, op, ticks, Code), BlockIn(k, c, op, ticks);
    assert SameNotes(k, passed);
    assert SameNotes(k, blocked);
    hide PassThrough, BlockIn, NextRunnable;
  }

  /** A give adds one to the target's count, modulo 2^32, and releases the target if it waits for one; nobody else's
      count changes. */
  lemma GiveEffect(k: Kernel, s: Step)
    requires KernelOk(k) && s.DoGive? && Enabled(k, s)
    ensures var r, n := Next(k, s), k.tasks[s.target].notes;
            && |r.tasks| == |k.tasks| && AllKept(k, r)
            && r.tasks[s.target].notes.count == (n.count + 1) % 0x1_0000_0000
            && r.tasks[s.target].notes.gives == n.gives + 1
            && r.tasks[s.target].notes.cleared == n.cleared && r.tasks[s.target].notes.singles == n.singles
            && (k.tasks[s.target].blocked && k.tasks[s.target].wait.kind == Notified ==>
                  !r.tasks[s.target].blocked && r.tasks[s.target].wait.result == Ready)
            && (k.tasks[s.target].blocked && k.tasks[s.target].wait.kind != Notified ==> r.tasks[s.target].blocked)
            && (forall i :: 0 <= i < |k.tasks| && i != s.target ==>
                  r.tasks[i].notes == k.tasks[i].notes && (k.tasks[i].blocked ==> r.tasks[i].blocked))
  {
    hide KernelOk, Next, Preempt, NextRunnable, Enabled, TaskOk, InUse;
    GiveIs(k, s);
    GiveTargets(k, s);
    var given := Dispatch(SetTask(k, s.target, GivenTask(k.tasks[s.target])));
    PreemptTouches(given, s.th, None);
  }

  lemma GiveTargets(k: Kernel, s: Step)
    requires s.DoGive? && Enabled(k, s)
    ensures IsThread(k, s.th) && s.target < |k.tasks|
  {
  }

  lemma GiveIs(k: Kernel, s: Step)
    requires s.DoGive? && Enabled(k, s)
    ensures Next(k, s) == Give(k, s.th, s.target)
  {
    hide Give;
  }

  /** A preemption moves its caller at most. */
  lemma PreemptTouches(k: Kernel, th: Thread, use: Option<nat>)
    requires IsThread(k, th)
    ensures var r := Preempt(k, th, use);
            && AllKept(k, r) && |r.tasks| == |k.tasks| && r.mutexes == k.mutexes
            && (forall i :: 0 <= i < |k.tasks| ==>
                  r.tasks[i].notes == k.tasks[i].notes && r.tasks[i].blocked == k.tasks[i].blocked
                  && r.tasks[i].wait == k.tasks[i].wait)
  {
    PreemptItems(k, th, use);
    hide NextRunnable;
  }

  /** A delay puts its caller to sleep until the clock has moved by its ticks; one of no ticks queues it behind
      everybody. */
  lemma DelayEffect(k: Kernel, s: Step)
    requires s.DoDelay? && Enabled(k, s) && s.ticks <= 0x8000_0000
    ensures var r := Next(k, s);
            && AllKept(k, r) && |r.tasks| == |k.tasks|
            && (if s.ticks == 0 then
                  r.tasks[s.c].pc == Turn(None) && r.tasks[s.c].runnable && r.tasks[s.c].readyOrder == k.nextReady
                else if StoppingThread(k, Worker(s.c)) then r.tasks[s.c].pc == Turn(None) && !r.tasks[s.c].blocked
                else Sleeps(k, r, s.c, DelayOp, s.ticks))
  {
    DelayIs(k, s);
    hide Next, NextRunnable;
    if s.ticks == 0 {
      YieldQueuesUp(k, s.c);
    } else if StoppingThread(k, Worker(s.c)) {
      DelayPasses(k, s.c, s.ticks);
    } else {
      GoesToSleep(k, s.c, DelayOp, s.ticks);
      NotYet(k, s.ticks);
      DelayKeepsQueues(k, s.c, s.ticks);
    }
    hide BlockIn, PassThrough, Requeue;
  }

  lemma NotYet(k: Kernel, ticks: nat)
    requires 0 < ticks <= 0x8000_0000
    ensures !DeadlineReached(Clock(k.micros), Clock(k.micros) + ticks)
  {
    assert (Clock(k.micros) - (Clock(k.micros) + ticks)) % TICKS_WRAP == TICKS_WRAP - ticks;
  }

  lemma DelayIs(k: Kernel, s: Step)
    requires s.DoDelay? && Enabled(k, s)
    ensures Next(k, s) == Delay(k, s.c, s.ticks)
  {
    hide Delay;
  }

  lemma YieldQueuesUp(k: Kernel, c: nat)
    requires c < |k.tasks|
    ensures var r := Yield(k, c);
            && AllKept(k, r) && |r.tasks| == |k.tasks|
            && r.tasks[c].pc == Turn(None) && r.tasks[c].runnable && r.tasks[c].readyOrder == k.nextReady
  {
    hide NextRunnable;
  }

  lemma DelayPasses(k: Kernel, c: nat, ticks: nat)
    requires c < |k.tasks|
    ensures var r := Dispatch(PassThrough(k, c, DelayOp, ticks, Turn(None)));
            AllKept(k, r) && |r.tasks| == |k.tasks| && r.tasks[c].pc == Turn(None) && !r.tasks[c].blocked
  {
    hide NextRunnable;
  }

  lemma DelayKeepsQueues(k: Kernel, c: nat, ticks: nat)
    requires c < |k.tasks|
    ensures AllKept(k, Dispatch(BlockIn(k, c, DelayOp, ticks)))
  {
    hide NextRunnable;
  }

  // ----- waking one waiter

  ghost predicate WokeAsDue(k: Kernel, r: Kernel, q: nat, kind: WaitKind, i: nat) {
    && i < |r.tasks|
    && if WokenNext(k, q, kind, i) then !r.tasks[i].blocked && r.tasks[i].wait.result == Ready else r.tasks[i].blocked
  }

  /** Of the tasks blocked on the queue for that reason exactly the one that is woken next is released, ready. */
  ghost predicate WokeOne(k: Kernel, r: Kernel, q: nat, kind: WaitKind) {
    forall i: nat :: WaitsFor(k, q, kind, i) ==> WokeAsDue(k, r, q, kind, i)
  }

  /** `mid` is the state when a waiter is woken: the same tasks wait as before the step. */
  lemma PublishWakesOne(k: Kernel, mid: Kernel, th: Thread, q: nat, kind: WaitKind)
    requires KernelOk(k) && |mid.tasks| == |k.tasks| && IsThread(mid, th)
    requires forall i: nat :: WaitsFor(mid, q, kind, i) <==> WaitsFor(k, q, kind, i)
    requires forall i: nat :: WaitsFor(k, q, kind, i) ==> mid.tasks[i] == k.tasks[i]
    ensures WokeOne(k, Publish(mid, th, q, kind), q, kind)
  {
    hide KernelOk, WokenNext, Preempt, NextRunnable, QueueWaiter, WaitsFor;
    var released := ReleaseQueueWaiter(mid, q, kind);
    SameWaiter(k, mid, q, kind);
    PreemptTouches(Dispatch(released), th, Some(q));
    forall i: nat | WaitsFor(k, q, kind, i) ensures WokeAsDue(k, Publish(mid, th, q, kind), q, kind, i) {
      WaiterIs(k, q, kind, i);
      WaitsBlocked(k, q, kind, i);
    }
  }

  lemma WaitsBlocked(k: Kernel, q: nat, kind: WaitKind, i: nat)
    requires WaitsFor(k, q, kind, i)
    ensures i < |k.tasks| && k.tasks[i].blocked
  {
  }

  /** The scan looks at nothing but the waiting tasks. */
  lemma SameWaiter(k: Kernel, mid: Kernel, q: nat, kind: WaitKind)
    requires |mid.tasks| == |k.tasks|
    requires forall i: nat :: WaitsFor(mid, q, kind, i) <==> WaitsFor(k, q, kind, i)
    requires forall i: nat :: WaitsFor(k, q, kind, i) ==> mid.tasks[i] == k.tasks[i]
    ensures QueueWaiter(mid, q, kind) == QueueWaiter(k, q, kind)
  {
    forall i | 0 <= i < |k.tasks| ensures WaitEntries(mid, q, kind)[i] == WaitEntries(k, q, kind)[i] {
      assert WaitsFor(mid, q, kind, i) <==> WaitsFor(k, q, kind, i);
    }
    assert WaitEntries(mid, q, kind) == WaitEntries(k, q, kind);
  }

  /** A send that puts an item in wakes one receiver, a receive that takes one out wakes one sender, and so does a
      reset: the one with the highest priority, and among equals the one blocked longest. */
  lemma QueueStepWakesOne(k: Kernel, s: Step)
    requires KernelOk(k) && (s.DoSend? || s.DoReceive? || s.DoResetQueue?) && Enabled(k, s)
    requires !k.queues[s.queue].deleted && !(s.th.Worker? && StoppingThread(k, s.th))
    requires s.DoSend? ==> !k.stopping && |k.queues[s.queue].items| < k.queues[s.queue].capacity
    requires s.DoReceive? ==> !k.stopping && k.queues[s.queue].items != []
    ensures WokeOne(k, Next(k, s), s.queue, if s.DoSend? then Receiving else Sending)
  {
    hide KernelOk, Publish, WokeOne, WaitsFor;
    assert forall i: nat :: WaitsFor(k, s.queue, Receiving, i) <==> WaitsFor(k, s.queue, Receiving, i);
    match s
    case DoSend(th, q, item, front, _) =>
      SameWaits(k, Push(k, q, item, front), q, Receiving);
      PublishWakesOne(k, Push(k, q, item, front), th, q, Receiving);
    case DoReceive(th, q, _) =>
      SameWaits(k, Pop(k, q), q, Sending);
      PublishWakesOne(k, Pop(k, q), th, q, Sending);
    case DoResetQueue(th, q) =>
      var cleared := SetQueue(k, q, k.queues[q].(items := [], discarded := k.queues[q].discarded + k.queues[q].items));
      SameWaits(k, cleared, q, Sending);
      PublishWakesOne(k, cleared, th, q, Sending);
  }

  lemma SameWaits(k: Kernel, mid: Kernel, q: nat, kind: WaitKind)
    requires mid.tasks == k.tasks
    ensures forall i: nat :: WaitsFor(mid, q, kind, i) <==> WaitsFor(k, q, kind, i)
    ensures forall i: nat :: WaitsFor(k, q, kind, i) ==> i < |k.tasks| && mid.tasks[i] == k.tasks[i]
  {
  }

  /** A resumed send or receive wakes one of the others in the same way. */
  lemma ResumedCallWakesOne(k: Kernel, c: nat)
    requires KernelOk(k) && Enabled(k, DoResume(c)) && !StoppingThread(k, Worker(c)) && k.tasks[c].wait.result == Ready
    requires k.tasks[c].pc.op.SendOp? || k.tasks[c].pc.op.ReceiveOp?
    requires k.tasks[c].pc.op.queue < |k.queues| && !k.queues[k.tasks[c].pc.op.queue].deleted
    requires k.tasks[c].pc.op.ReceiveOp? ==> k.queues[k.tasks[c].pc.op.queue].items != []
    ensures WokeOne(k, Resume(k, c), k.tasks[c].pc.op.queue, if k.tasks[c].pc.op.SendOp? then Receiving else Sending)
  {
    hide KernelOk, Publish, WokeOne, WaitsFor, Dispatch, Awaken;
    Facts(k, c);
    AwokenContents(k, c);
    AwokenWaits(k, c);
    hide TaskOk, Enabled, InUse;
    var woken := Dispatch(Awaken(k, c));
    match k.tasks[c].pc.op
    case SendOp(q, item, front) =>
      SameWaits(woken, Push(woken, q, item, front), q, Receiving);
      PublishWakesOne(k, Push(woken, q, item, front), Worker(c), q, Receiving);
    case ReceiveOp(q) =>
      SameWaits(woken, Pop(woken, q), q, Sending);
      PublishWakesOne(k, Pop(woken, q), Worker(c), q, Sending);
  }

  /** Leaving a wait it was released from, a task changes nobody else's. */
  lemma AwokenWaits(k: Kernel, c: nat)
    requires c < |k.tasks| && k.tasks[c].pc.Wait? && !k.tasks[c].blocked
    ensures forall q, kind, i: nat :: WaitsFor(Dispatch(Awaken(k, c)), q, kind, i) <==> WaitsFor(k, q, kind, i)
    ensures forall q, kind, i: nat :: WaitsFor(k, q, kind, i) ==> Dispatch(Awaken(k, c)).tasks[i] == k.tasks[i]
  {
    hide NextRunnable;
  }

  // ----- the queues themselves

  /** A reset empties a live queue, unless the caller is a stopping task. */
  lemma ResetEffect(k: Kernel, s: Step)
    requires s.DoResetQueue? && Enabled(k, s)
    ensures var r, x := Next(k, s), k.queues[s.queue];
            && OthersKept(k, r, s.queue)
            && if x.deleted || (s.th.Worker? && StoppingThread(k, s.th)) then SameItems(x, r.queues[s.queue])
               else var y := r.queues[s.queue];
                 && y.items == [] && y.discarded == x.discarded + x.items && y.accepted == x.accepted
                    && y.received == x.received
                 && y.capacity == x.capacity && !y.deleted
  {
    var x := k.queues[s.queue];
    hide Publish;
    PublishItems(SetQueue(k, s.queue, x.(items := [], discarded := x.discarded + x.items)), s.th, s.queue, Sending);
  }

  /** The first deletion of a queue drops what it holds and cancels every call that waits on it; the caller goes on at
      once, the memory released, exactly if no call is inside the queue any more, and waits without the turn
      otherwise. */
  lemma DeleteQueueEffect(k: Kernel, s: Step)
    requires KernelOk(k) && s.DoDeleteQueue? && Enabled(k, s) && !k.queues[s.queue].deleted
    ensures var r, x := Next(k, s), k.queues[s.queue];
            && OthersKept(k, r, s.queue) && |r.tasks| == |k.tasks|
            && (var y := r.queues[s.queue];
                && y.deleted && y.items == [] && y.discarded == x.discarded + x.items && y.accepted == x.accepted
                && y.received == x.received && (y.freed <==> x.users == 0) && y.deleter == Some(s.th))
            && (forall i :: 0 < i < |k.tasks| && k.tasks[i].blocked && k.tasks[i].wait.queue == Some(s.queue) ==>
                  !r.tasks[i].blocked && r.tasks[i].wait.result == Cancelled)
            && IsThread(r, s.th) && PcOf(r, s.th) == (if x.users == 0 then Code else Drain(s.queue))
            && (x.users > 0 && s.th.Worker? ==> r.running != Some(s.th.id))
  {
    DeleteIs(k, s);
    hide KernelOk, Next, ReleaseAllOn, DrainBy, Dispatch, MarkDeleted;
    var gone := Dispatch(ReleaseAllOn(MarkDeleted(k, s.queue, s.th), s.queue));
    GoneEffect(k, s.th, s.queue);
    if k.queues[s.queue].users > 0 { DrainsAside(k, gone, s.th, s.queue); }
  }

  lemma GoneEffect(k: Kernel, th: Thread, q: nat)
    requires q < |k.queues| && Calls(k, th)
    ensures var gone, x := Dispatch(ReleaseAllOn(MarkDeleted(k, q, th), q)), k.queues[q];
            && OthersKept(k, gone, q) && |gone.tasks| == |k.tasks| && IsThread(gone, th) && PcOf(gone, th) == Code
            && gone.queues[q] ==
               x.(deleted := true, items := [], discarded := x.discarded + x.items, deleter := Some(th),
                                    freed := x.users == 0)
            && (forall i :: 0 < i < |k.tasks| && k.tasks[i].blocked && k.tasks[i].wait.queue == Some(q) ==>
                  !gone.tasks[i].blocked && gone.tasks[i].wait.result == Cancelled)
  {
    hide NextRunnable;
  }

  lemma DeleteIs(k: Kernel, s: Step)
    requires s.DoDeleteQueue? && Enabled(k, s)
    ensures Next(k, s) == DeleteQueue(k, s.th, s.queue)
  {
    hide DeleteQueue;
  }

  lemma DrainsAside(k: Kernel, gone: Kernel, th: Thread, q: nat)
    requires IsThread(gone, th) && PcOf(gone, th) == Code
    ensures var r := DrainBy(gone, th, q);
            && r.queues == gone.queues && |r.tasks| == |gone.tasks| && IsThread(r, th) && PcOf(r, th) == Drain(q)
            && (forall i :: 0 <= i < |gone.tasks| ==>
                  r.tasks[i].blocked == gone.tasks[i].blocked && r.tasks[i].wait == gone.tasks[i].wait)
            && (th.Worker? ==> r.running != Some(th.id))
  {
  }

  /** A deleting thread goes on when the queue has no users left, or the scheduler stops, and releases the memory in the
      first case only. */
  lemma DrainEffect(k: Kernel, s: Step)
    requires (s.DoEndDrain? || s.DoFreeQueue?) && Enabled(k, s)
    ensures var r, pc := Next(k, s), PcOf(k, s.th);
            && AllKept(k, r) && IsThread(r, s.th)
            && (s.DoEndDrain? ==> PcOf(r, s.th) == DrainTurn(pc.queue, k.queues[pc.queue].users == 0)
                                  && r.queues[pc.queue].freed == k.queues[pc.queue].freed)
            && (s.DoFreeQueue? ==>
                  PcOf(r, s.th) == Code && (r.queues[pc.queue].freed <==> k.queues[pc.queue].freed || pc.drained))
  {
    if s.DoEndDrain? {
      hide Requeue;
      if s.th.Worker? { RequeueMoves(k, s.th.id,
                                     DrainTurn(PcOf(k, s.th).queue, k.queues[PcOf(k, s.th).queue].users == 0)); }
    }
  }

  lemma RequeueMoves(k: Kernel, c: nat, pc: Pc)
    requires c < |k.tasks|
    ensures var r := Requeue(k, c, pc); r.queues == k.queues && c < |r.tasks| && r.tasks[c].pc == pc
  {
    hide NextRunnable;
  }

  // ----- mutexes

  /** Taking a free mutex makes the caller its holder; a lock() of a taken one leaves its owner alone and links the
      caller as the latest arrival, a task going to sleep; a try_lock of a taken one changes nothing. */
  lemma LockEffect(k: Kernel, s: Step)
    requires (s.DoLock? || s.DoTryLock?) && Enabled(k, s)
    ensures var r, x := Next(k, s), k.mutexes[s.mutex];
            && |r.mutexes| == |k.mutexes|
            && (!x.locked ==>
                  && r.mutexes[s.mutex] == x.(locked := true, owner := Held(s.th))
                  && r.tasks == k.tasks && r.hosts == k.hosts)
            && (x.locked && s.DoTryLock? ==> r == k)
            && (x.locked && s.DoLock? ==>
                  && r.mutexes[s.mutex].locked && r.mutexes[s.mutex].owner == x.owner
                  && r.mutexes[s.mutex].waiters == [Waiter(s.th, k.nextReady)] + x.waiters
                  && IsThread(r, s.th) && PcOf(r, s.th) == LockWait(s.mutex, k.nextReady, false)
                  && (s.th.Worker? ==>
                        && r.tasks[s.th.id].blocked && r.running != Some(s.th.id)
                        && r.tasks[s.th.id].waitOrder == k.nextReady))
  {
    hide NextRunnable;
  }

  /** A lock() that returns makes its caller the holder of the mutex it was granted. */
  lemma LockReturnEffect(k: Kernel, s: Step)
    requires s.DoLockReturn? && Enabled(k, s)
    ensures var r, m := Next(k, s), PcOf(k, s.th).mutex;
            && |r.mutexes| == |k.mutexes| && r.mutexes[m] == k.mutexes[m].(owner := Held(s.th))
            && IsThread(r, s.th) && PcOf(r, s.th) == Code
  {
  }

  // ----- tasks

  /** A created task is ready to run behind every other one, with the priority and the heap charge it was created
      with. */
  lemma CreateEffect(k: Kernel, s: Step)
    requires s.DoCreate? && Enabled(k, s) && !k.stopping
    ensures var r, n := Next(k, s), |k.tasks|;
            && |r.tasks| == n + 1
            && (var t := r.tasks[n];
                && t.priority == s.priority && t.readyOrder == k.nextReady && t.pc == Turn(None)
                   && t.life == Life(Running, None, 0)
                && t.runnable && !t.blocked && !t.parked && !t.stopping && t.notes == Notes(0, 0, 0, 0, 0)
                && t.heap == Heap(s.bytes, s.bytes != 0, s.bytes, []))
  {
    var made := WithNewTask(k, s.priority, s.bytes);
    assert made.tasks[|k.tasks|] == NewTask(s.priority, k.nextReady, s.bytes) && |made.tasks| == |k.tasks| + 1;
    NewTaskStays(made, s.th, |k.tasks|);
    hide WithNewTask, NewTask, Preempt;
  }

  lemma NewTaskStays(k: Kernel, th: Thread, n: nat)
    requires IsThread(k, th) && n < |k.tasks| && th != Worker(n)
    ensures |Preempt(k, th, None).tasks| == |k.tasks| && Preempt(k, th, None).tasks[n] == k.tasks[n]
  {
    hide NextRunnable;
  }

  /** A deleted task is stopping, out of its wait and without the turn, for good; the caller, if it is another, goes on
      to join it. */
  lemma DeleteEffect(k: Kernel, s: Step)
    requires KernelOk(k) && s.DoDelete? && Enabled(k, s)
    ensures var r, t := Next(k, s), k.tasks[s.target];
            && |r.tasks| == |k.tasks| && r.running != Some(s.target)
            && (var u := r.tasks[s.target];
                && u.stopping && !u.blocked && !u.runnable && (t.blocked ==> u.wait.result == Cancelled)
                && u.life.cycle == (if t.life.cycle == Running then StopRequested else t.life.cycle))
            && (s.th != Worker(s.target) ==> IsThread(r, s.th) && PcOf(r, s.th) == Join(s.target))
  {
  }

  /** Stopping all tasks stops every task of the registry, out of its wait, and leaves the timer service alone. */
  lemma StopAllEffect(k: Kernel)
    requires KernelOk(k) && k.stopping
    ensures var r := StopAll(k);
            && |r.tasks| == |k.tasks| && (r.running.Some? ==> r.running == Some(0) == k.running)
            && r.tasks[0] == k.tasks[0]
            && (forall i :: 0 < i < |k.tasks| ==>
                  && r.tasks[i].stopping && !r.tasks[i].blocked && !r.tasks[i].runnable
                  && (k.tasks[i].blocked ==> r.tasks[i].wait.result == Cancelled))
  {
  }

  /** A finished task is gone from the scheduler's sight, its lifecycle finished and its heap charge given back once. */
  lemma FinishEffect(k: Kernel, s: Step)
    requires KernelOk(k) && s.DoFinish? && Enabled(k, s)
    ensures var r, t := Next(k, s), k.tasks[s.c];
            && |r.tasks| == |k.tasks| && r.running != Some(s.c)
            && (var u := r.tasks[s.c];
                && u.pc == Exited && !u.blocked && !u.runnable && u.life.cycle == Finished
                   && u.life.claimant == t.life.claimant
                && !u.heap.charged
                && u.heap.released == (if t.heap.charged && t.heap.bytes != 0 then t.heap.released + [t.heap.bytes]
                                       else t.heap.released))
  {
    FinishIs(k, s);
    Facts(k, s.c);
    hide KernelOk, Next, NextRunnable;
  }

  lemma FinishIs(k: Kernel, s: Step)
    requires s.DoFinish? && Enabled(k, s)
    ensures Next(k, s) == Finish(k, s.c)
  {
    hide Finish;
  }

  /** A deleting thread returns if the target was joined, claims the join of a finished target nobody claimed, and waits
      on otherwise; the claimant's join makes the target joined. */
  lemma JoinEffect(k: Kernel, s: Step)
    requires KernelOk(k) && (s.DoPollJoin? || s.DoCompleteJoin?) && Enabled(k, s)
    ensures var r, target := Next(k, s), PcOf(k, s.th).target; var t := k.tasks[target];
            && |r.tasks| == |k.tasks| && IsThread(r, s.th)
            && (s.DoPollJoin? ==>
                  match t.life.cycle
                  case Joined => PcOf(r, s.th) == Code && r.tasks[target].life == t.life
                  case Finished =>
                    PcOf(r, s.th) == Claimed(target) && r.tasks[target].life == Life(Joining, Some(s.th), t.life.joins)
                  case _ => r == k)
            && (s.DoCompleteJoin? ==>
                  PcOf(r, s.th) == Code && r.tasks[target].life == Life(Joined, Some(s.th), t.life.joins + 1))
  {
    JoinFacts(k, s.th, PcOf(k, s.th).target);
    hide KernelOk;
  }

  // ----- turns, the clock and the timer service

  /** A parked holder loses the turn and does not get it back while it is parked; a task that reaches its wait for the
      turn is no longer parked; one that gets the turn is in its own code again. */
  lemma TurnEffect(k: Kernel, s: Step)
    requires KernelOk(k) && (s.DoPark? || s.DoReachTurn? || s.DoTakeTurn?) && Enabled(k, s)
    ensures var r := Next(k, s);
            && |r.tasks| == |k.tasks|
            && (s.DoPark? && k.running.Some? ==>
                  var c := k.running.value;
                  c < |k.tasks| && r.tasks[c] == k.tasks[c].(parked := true) && r.running != Some(c))
            && (s.DoReachTurn? ==> r.tasks[s.c] == k.tasks[s.c].(parked := false))
            && (s.DoTakeTurn? ==> r.tasks[s.c] == k.tasks[s.c].(pc := Code) && r.running == k.running)
  {
    hide NextRunnable;
  }

  /** The timer service is ready to run while timers are due, queued up by when they became due; it ceases to be, and
      loses the turn, when they are not and no callback runs. Only a clock step moves the clock, by just its length. */
  lemma ClockEffect(k: Kernel, s: Step)
    requires KernelOk(k) && Enabled(k, s) && (s.DoTimerDue? || s.DoAdvance?)
    ensures var r := Next(k, s); var t, u := k.tasks[0], r.tasks[0];
            && |r.tasks| == |k.tasks| && u.pc == t.pc && r.timerExecuting == k.timerExecuting
            && r.micros == k.micros + (if s.DoAdvance? then s.elapsed else 0)
            && u.runnable == (s.due || (t.runnable && k.timerExecuting))
            && u.readyOrder == (if s.due && !t.runnable then k.nextReady else t.readyOrder)
            && (!s.due && !k.timerExecuting ==> r.running != Some(0))
  {
    ClockIs(k, s);
    hide KernelOk, Enabled, Next, TimerDue, ReleaseDue;
    if s.DoAdvance? {
      var later := ReleaseDue(k.(micros := k.micros + s.elapsed));
      DueLeavesTimer(k.(micros := k.micros + s.elapsed));
      TimerDueEffect(later, s.due);
    } else {
      TimerDueEffect(k, s.due);
    }
  }

  lemma ClockIs(k: Kernel, s: Step)
    requires Enabled(k, s) && (s.DoTimerDue? || s.DoAdvance?)
    ensures |k.tasks| > 0
    ensures Next(k, s) == TimerDue(if s.DoAdvance? then ReleaseDue(k.(micros := k.micros + s.elapsed)) else k, s.due)
  {
    hide TimerDue, ReleaseDue;
  }

  lemma DueLeavesTimer(k: Kernel)
    requires |k.tasks| > 0
    ensures var r := ReleaseDue(k); r == k.(tasks := r.tasks) && |r.tasks| == |k.tasks| && r.tasks[0] == k.tasks[0]
  {
  }

  lemma TimerDueEffect(k: Kernel, due: bool)
    requires |k.tasks| > 0
    ensures var r := TimerDue(k, due); var t, u := k.tasks[0], r.tasks[0];
            && |r.tasks| == |k.tasks| && u.pc == t.pc && r.timerExecuting == k.timerExecuting && r.micros == k.micros
            && u.runnable == (due || (t.runnable && k.timerExecuting))
            && u.readyOrder == (if due && !t.runnable then k.nextReady else t.readyOrder)
            && (!due && !k.timerExecuting ==> r.running != Some(0))
  {
  }

  /** It runs one callback from the moment it gets the turn until it ends it. */
  lemma CallbackEffect(k: Kernel, s: Step)
    requires KernelOk(k) && Enabled(k, s) && (s.DoEnterTimer? || s.DoStartTimer? || s.DoExitTimer?)
    ensures var r := Next(k, s);
            && |r.tasks| == |k.tasks| > 0
            && (var u := r.tasks[0];
                && (s.DoEnterTimer? ==>
                      u.pc == Turn(None) && u.runnable && !u.parked && r.timerExecuting == k.timerExecuting)
                && (s.DoStartTimer? ==> u.pc == Code && r.timerExecuting)
                && (s.DoExitTimer? ==> u.pc == Idle && !r.timerExecuting && u.runnable == s.due && !u.blocked))
  {
    hide NextRunnable, KernelOk;
  }

  // ----- how waits end

  /** Another thread's step leaves a waiting task's wait alone or ends it: ready by a send, a receive, a reset, a give
      or a resumed call; by timeout in a clock step; cancelled by a stop or a queue's deletion. The task then has the
      place in line it has had since it blocked, unless it is stopping. A wait that has ended stays as it ended. */
  lemma WaitEndsBy(k: Kernel, s: Step, i: nat)
    requires KernelOk(k) && Enabled(k, s) && s != DoResume(i) && 0 < i < |k.tasks| && k.tasks[i].pc.Wait?
    ensures i < |Next(k, s).tasks| && Next(k, s).tasks[i].pc == k.tasks[i].pc
    ensures var t, u := k.tasks[i], Next(k, s).tasks[i];
            if t.blocked && !u.blocked then
              && u.readyOrder == t.waitOrder && (u.runnable || u.stopping)
              && match u.wait.result
                 case Ready => s.DoSend? || s.DoReceive? || s.DoGive? || s.DoResume? || s.DoResetQueue?
                 case Timeout => s.DoAdvance?
                 case Cancelled => s.DoDelete? || s.DoStopAll? || s.DoDeleteQueue?
                 case NoResult => false
            else u.blocked == t.blocked && u.readyOrder == t.readyOrder && (t.blocked ==> u.wait == t.wait)
                 && (!t.blocked ==> u.wait.result == t.wait.result)
  {
    StepOnward(k, s);
    NotTheWaiter(k, s, i);
    hide KernelOk, Enabled, Next, Onward;
    assert BystandsAt(i, k.tasks[i], Next(k, s).tasks[i], ScopeOf(s)) by { BystanderOf(k, Next(k, s), ScopeOf(s), i); }
  }

  lemma NotTheWaiter(k: Kernel, s: Step, i: nat)
    requires Enabled(k, s) && s != DoResume(i) && 0 < i < |k.tasks| && k.tasks[i].pc.Wait?
    ensures ScopeOf(s).actor != Some(Worker(i))
  {
  }

  lemma BystanderOf(k: Kernel, r: Kernel, scope: Scope, i: nat)
    requires Onward(k, r, scope) && i < |k.tasks| && scope.actor != Some(Worker(i))
    ensures i < |r.tasks| && BystandsAt(i, k.tasks[i], r.tasks[i], scope)
  {
  }
}
