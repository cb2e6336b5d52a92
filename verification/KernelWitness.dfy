/** Short runs from boot that show what the promises must leave out. */
module KernelWitness {
  import opened Selection
  import opened KernelState
  import opened KernelSteps
  import opened KernelMachine
  import opened KernelInvariant
  import opened KernelWakeup
  import opened KernelTime

  /** The timer service record between callbacks. */
  function TimerRecord(): Task { NewTask(22, 0, 0).(pc := Idle, runnable := false) }

  function World(tasks: seq<Task>, host: Pc, queues: seq<Queue>, running: Option<nat>, next: nat): Kernel {
    Kernel([TimerRecord()] + tasks, [host], queues, [], running, next, 0, false, false)
  }

  function Booted(): Kernel { World([], Code, [], None, 0) }

  /** One queue and no task yet. */
  function Opened(x: Queue): Kernel { World([], Code, [x], None, 0) }

  function QueueWith(capacity: nat, items: seq<Item>, users: nat, accepted: seq<Item>, received: seq<Item>,
                     discarded: seq<Item>): Queue {
    Queue(capacity, items, false, users, None, false, accepted, received, discarded, false)
  }

  function BlockedTask(t: Task, op: Op, order: nat): Task {
    t.(blocked := true, runnable := false, waitOrder := order, pc := Wait(op),
       wait := WaitState(KindOf(op), NoResult, QueueOf(op), false, 0, MAX_DELAY))
  }

  function Later(a: Entry, b: Entry): Option<nat> {
    if a.In? && !Beats(b, a) then Some(1) else if b.In? then Some(2) else None
  }

  /** With at most two tasks besides the resting timer record, who is chosen. */
  lemma Choice(k: Kernel, q: nat, kind: WaitKind)
    requires 1 <= |k.tasks| <= 3 && k.tasks[0] == TimerRecord()
    ensures var t1 := if |k.tasks| > 1 then ReadyEntry(k.stopping, k.tasks[1]) else Out;
            var t2 := if |k.tasks| > 2 then ReadyEntry(k.stopping, k.tasks[2]) else Out;
            NextRunnable(k) == Later(t1, t2)
    ensures var t1 := if |k.tasks| > 1 then WaitEntry(k.tasks[1], q, kind) else Out;
            var t2 := if |k.tasks| > 2 then WaitEntry(k.tasks[2], q, kind) else Out;
            QueueWaiter(k, q, kind) == Later(t1, t2)
  {
    SmallScan(ScanEntries(k));
    SmallSelect(WaitEntries(k, q, kind));
  }

  /** The same with the timer record scanned last. */
  lemma SmallScan(es: seq<Entry>)
    requires 1 <= |es| <= 3 && es[|es| - 1] == Out
    ensures Select(es) == match Later(if |es| > 1 then es[0] else Out, if |es| > 2 then es[1] else Out)
                          case Some(i) => Some(i - 1) case None => None
  {
    assert es[..|es|] == es;
    assert Select(es[..0]) == None;
    assert es[..1][..0] == es[..0];
    assert |es| > 1 ==> es[..2][..1] == es[..1];
    assert |es| > 2 ==> es[..3][..2] == es[..2];
  }

  lemma SmallSelect(es: seq<Entry>)
    requires 1 <= |es| <= 3 && es[0] == Out
    ensures Select(es) == Later(if |es| > 1 then es[1] else Out, if |es| > 2 then es[2] else Out)
  {
    assert Select(es[..1]) == None by { assert Select(es[..1][..0]) == None; }
    if |es| == 1 { assert es[..1] == es; }
    else {
      assert es[..2][..1] == es[..1];
      assert Select(es[..2]) == if es[1].In? then Some(1) else None;
      if |es| == 2 { assert es[..2] == es; } else { assert es[..3] == es && es[..3][..2] == es[..2]; }
    }
  }

  /** Putting one more step in front of a run. */
  lemma Prepend(k: Kernel, s: Step, r: Kernel, rest: seq<Step>) returns (run: seq<Step>)
    requires Enabled(k, s) && Next(k, s) == r && IsRun(r, rest)
    ensures IsRun(k, run) && After(k, run) == After(r, rest)
  {
    run := [s] + rest;
    assert run[1..] == rest;
  }

  // ----- more items than the capacity

  const A: Item := [1]
  const B: Item := [2]
  const C: Item := [3]
  const SEND_B: Op := SendOp(0, [2], false)

  function Sender(): Task { NewTask(1, 0, 0) }

  function Stuck(): Task { BlockedTask(Sender(), SEND_B, 1) }

  function QueueMade(): Kernel { World([], Code, [QueueWith(1, [], 0, [], [], [])], None, 0) }
  function SenderMade(): Kernel { World([Sender()], Code, [QueueWith(1, [], 0, [], [], [])], None, 1) }
  function QueueFilled(): Kernel { World([Sender()], Code, [QueueWith(1, [A], 0, [A], [], [])], Some(1), 1) }
  function SenderRuns(): Kernel {
    World([Sender().(pc := Code)], Code, [QueueWith(1, [A], 0, [A], [], [])], Some(1), 1)
  }
  function SenderBlocked(): Kernel { World([Stuck()], Code, [QueueWith(1, [A], 1, [A], [], [])], None, 2) }
  function SenderWoken(): Kernel {
    World([ReleasedTask(Stuck(), Ready)], Code, [QueueWith(1, [], 1, [A], [A], [])], Some(1), 2)
  }
  function RoomTaken(): Kernel {
    World([ReleasedTask(Stuck(), Ready)], Code, [QueueWith(1, [C], 1, [A, C], [A], [])], Some(1), 2)
  }

  ghost predicate Steps(k: Kernel, s: Step, r: Kernel) { Enabled(k, s) && Next(k, s) == r }

  lemma Creates()
    ensures Steps(Booted(), DoNewQueue(1), QueueMade()) && Steps(QueueMade(), DoCreate(Host(0), 1, 0), SenderMade())
  {
    assert Next(Booted(), DoNewQueue(1)).queues == QueueMade().queues;
    assert Next(QueueMade(), DoCreate(Host(0), 1, 0)).tasks == SenderMade().tasks;
  }

  lemma Fills()
    ensures Steps(SenderMade(), DoSend(Host(0), 0, A, false, 0), QueueFilled())
            && Steps(QueueFilled(), DoTakeTurn(1), SenderRuns())
  {
    var pushed := Push(SenderMade(), 0, A, false);
    Choice(pushed, 0, Receiving);
    assert pushed.queues[0] == QueueFilled().queues[0] by { assert [] + [A] == [A]; }
    assert pushed.queues == QueueFilled().queues;
    assert Next(SenderMade(), DoSend(Host(0), 0, A, false, 0)).tasks == QueueFilled().tasks;
    assert Next(QueueFilled(), DoTakeTurn(1)).tasks == SenderRuns().tasks;
  }

  lemma Blocks()
    ensures Steps(SenderRuns(), DoSend(Worker(1), 0, B, false, MAX_DELAY), SenderBlocked())
  {
    var blocked := BlockIn(SenderRuns(), 1, SEND_B, MAX_DELAY);
    assert blocked.tasks == SenderBlocked().tasks && blocked.queues == SenderBlocked().queues;
    Choice(blocked, 0, Sending);
  }

  lemma Drains()
    ensures Steps(SenderBlocked(), DoReceive(Host(0), 0, 0), SenderWoken())
  {
    var popped := Pop(SenderBlocked(), 0);
    assert popped.queues[0] == SenderWoken().queues[0] by { assert [A][1..] == [] && [] + [A] == [A]; }
    assert popped.queues == SenderWoken().queues;
    Choice(popped, 0, Sending);
    var released := Release(popped, 1, Ready);
    assert released.tasks == SenderWoken().tasks;
    Choice(released, 0, Sending);
  }

  lemma Refills()
    ensures Steps(SenderWoken(), DoSend(Host(0), 0, C, false, 0), RoomTaken())
  {
    var pushed := Push(SenderWoken(), 0, C, false);
    assert pushed.queues[0] == RoomTaken().queues[0] by { assert [] + [C] == [C] && [A] + [C] == [A, C]; }
    assert pushed.queues == RoomTaken().queues;
    Choice(pushed, 0, Receiving);
  }

  lemma Overfills()
    ensures Enabled(RoomTaken(), DoResume(1)) && |Next(RoomTaken(), DoResume(1)).queues| == 1
    ensures Next(RoomTaken(), DoResume(1)).queues[0].items == [C, B]
            && Next(RoomTaken(), DoResume(1)).queues[0].capacity == 1
  {
    var woken := Dispatch(Awaken(RoomTaken(), 1));
    assert woken.tasks == [TimerRecord(), AwakeTask(ReleasedTask(Stuck(), Ready))];
    var pushed := Push(woken, 0, B, false);
    Choice(pushed, 0, Receiving);
    assert pushed.queues[0].items == [C, B];
    Choice(Dispatch(pushed), 0, Receiving);
  }

  /** A queue of capacity 1 can hold two items: a sender woken by a receive resumes after the room was taken again. */
  lemma CapacityCanBeExceeded() returns (run: seq<Step>)
    ensures Initial(Booted()) && IsRun(Booted(), run)
    ensures var k := After(Booted(), run);
            |k.queues| == 1 && k.queues[0].capacity == 1 && k.queues[0].items == [C, B]
  {
    Creates();
    Fills();
    Blocks();
    Drains();
    Refills();
    Overfills();
    hide Enabled, Next, QueueMade, SenderMade, QueueFilled, SenderRuns, SenderBlocked, SenderWoken, RoomTaken;
    run := [];
    run := Prepend(RoomTaken(), DoResume(1), Next(RoomTaken(), DoResume(1)), run);
    run := Prepend(SenderWoken(), DoSend(Host(0), 0, C, false, 0), RoomTaken(), run);
    run := Prepend(SenderBlocked(), DoReceive(Host(0), 0, 0), SenderWoken(), run);
    run := Prepend(SenderRuns(), DoSend(Worker(1), 0, B, false, MAX_DELAY), SenderBlocked(), run);
    run := Prepend(QueueFilled(), DoTakeTurn(1), SenderRuns(), run);
    run := Prepend(SenderMade(), DoSend(Host(0), 0, A, false, 0), QueueFilled(), run);
    run := Prepend(QueueMade(), DoCreate(Host(0), 1, 0), SenderMade(), run);
    run := Prepend(Booted(), DoNewQueue(1), QueueMade(), run);
  }

  // ----- lost wake-ups

  /** Two tasks of equal priority that make the same call on the same queue. */
  function Pair(first: Task, second: Task, x: Queue, running: Option<nat>, next: nat): Kernel {
    World([first, second], Code, [x], running, next)
  }

  function First(): Task { NewTask(1, 0, 0) }
  function Second(): Task { NewTask(1, 1, 0) }

  /** The call has to wait: an empty queue for a receiver, a full one for a sender. */
  predicate MustWait(x: Queue, op: Op) {
    && x == QueueWith(x.capacity, x.items, 0, x.items, [], []) && x.capacity > 0
    && (op == ReceiveOp(0) || (op.SendOp? && op.queue == 0)) && (op.ReceiveOp? ==> x.items == [])
    && (op.SendOp? ==> |x.items| == x.capacity)
  }

  function CallOf(op: Op, c: nat): Step
    requires op.SendOp? || op.ReceiveOp?
  {
    match op
    case SendOp(q, item, front) => DoSend(Worker(c), q, item, front, MAX_DELAY)
    case ReceiveOp(q) => DoReceive(Worker(c), q, MAX_DELAY)
  }

  function BothBlocked(x: Queue, op: Op): Kernel {
    Pair(BlockedTask(First(), op, 2), BlockedTask(Second(), op, 3), x.(users := 2), None, 4)
  }

  lemma CreatesBoth(x: Queue)
    ensures Steps(Opened(x), DoCreate(Host(0), 1, 0), World([First()], Code, [x], None, 1))
    ensures Steps(World([First()], Code, [x], None, 1), DoCreate(Host(0), 1, 0), Pair(First(), Second(), x, None, 2))
  {
    assert Next(Opened(x), DoCreate(Host(0), 1, 0)).tasks == World([First()], Code, [x], None, 1).tasks;
    assert Next(World([First()], Code, [x], None, 1), DoCreate(Host(0), 1, 0)).tasks ==
             Pair(First(), Second(), x, None, 2).tasks;
  }

  lemma StartsFirst(x: Queue)
    ensures Steps(Pair(First(), Second(), x, None, 2), DoDispatch, Pair(First(), Second(), x, Some(1), 2))
    ensures Steps(Pair(First(), Second(), x, Some(1), 2), DoTakeTurn(1),
                  Pair(First().(pc := Code), Second(), x, Some(1), 2))
  {
    Choice(Pair(First(), Second(), x, None, 2), 0, Sending);
    assert TakeTurn(Pair(First(), Second(), x, Some(1), 2), 1).tasks ==
             Pair(First().(pc := Code), Second(), x, Some(1), 2).tasks;
  }

  lemma BlocksFirst(x: Queue, op: Op)
    requires MustWait(x, op)
    ensures Steps(Pair(First().(pc := Code), Second(), x, Some(1), 2), CallOf(op, 1),
                  Pair(BlockedTask(First(), op, 2), Second(), x.(users := 1), Some(2), 3))
  {
    var turn := Pair(First().(pc := Code), Second(), x, Some(1), 2);
    var blocked := BlockIn(turn, 1, op, MAX_DELAY);
    var after := Pair(BlockedTask(First(), op, 2), Second(), x.(users := 1), Some(2), 3);
    assert blocked.tasks == after.tasks && blocked.queues == after.queues;
    assert Dispatch(blocked) == after by { Choice(blocked, 0, Sending); }
    CallBlocks(turn, op, 1);
  }

  /** A call that must wait, by a task that holds the turn, blocks it. */
  lemma CallBlocks(k: Kernel, op: Op, c: nat)
    requires 0 < c < |k.tasks| && k.tasks[c].pc == Code && !k.stopping && !k.tasks[c].stopping
    requires |k.queues| == 1 && !k.queues[0].deleted && !k.queues[0].freed
             && (op == ReceiveOp(0) || (op.SendOp? && op.queue == 0))
    requires (op.ReceiveOp? ==> k.queues[0].items == []) && (op.SendOp? ==> |k.queues[0].items| == k.queues[0].capacity)
    ensures Steps(k, CallOf(op, c), Dispatch(BlockIn(k, c, op, MAX_DELAY)))
  {
    hide BlockIn, Dispatch;
  }

  lemma StartsSecond(x: Queue, op: Op)
    ensures Steps(Pair(BlockedTask(First(), op, 2), Second(), x.(users := 1), Some(2), 3), DoTakeTurn(2),
                  Pair(BlockedTask(First(), op, 2), Second().(pc := Code), x.(users := 1), Some(2), 3))
  {
    var before := Pair(BlockedTask(First(), op, 2), Second(), x.(users := 1), Some(2), 3);
    var turn := Pair(BlockedTask(First(), op, 2), Second().(pc := Code), x.(users := 1), Some(2), 3);
    assert TakeTurn(before, 2).tasks == turn.tasks;
  }

  lemma BlocksSecond(x: Queue, op: Op)
    requires MustWait(x, op)
    ensures Steps(Pair(BlockedTask(First(), op, 2), Second().(pc := Code), x.(users := 1), Some(2), 3), CallOf(op, 2),
                  BothBlocked(x, op))
  {
    var turn := Pair(BlockedTask(First(), op, 2), Second().(pc := Code), x.(users := 1), Some(2), 3);
    var blocked := BlockIn(turn, 2, op, MAX_DELAY);
    assert blocked.tasks == BothBlocked(x, op).tasks && blocked.queues == BothBlocked(x, op).queues;
    assert Dispatch(blocked) == BothBlocked(x, op) by { Choice(blocked, 0, Sending); }
    CallBlocks(turn, op, 2);
  }

  /** From a queue and no task to both tasks blocked on it. */
  lemma RunToBlocked(x: Queue, op: Op, rest: seq<Step>) returns (run: seq<Step>)
    requires MustWait(x, op) && IsRun(BothBlocked(x, op), rest)
    ensures IsRun(Opened(x), run)
    ensures After(Opened(x), run) == After(BothBlocked(x, op), rest)
  {
    CreatesBoth(x);
    StartsFirst(x);
    BlocksFirst(x, op);
    StartsSecond(x, op);
    BlocksSecond(x, op);
    hide Enabled, Next, Pair, World, BothBlocked, BlockedTask, CallOf, First, Second;
    run := Prepend(Pair(BlockedTask(First(), op, 2), Second().(pc := Code), x.(users := 1), Some(2), 3), CallOf(op, 2),
                   BothBlocked(x, op), rest);
    run := Prepend(Pair(BlockedTask(First(), op, 2), Second(), x.(users := 1), Some(2), 3), DoTakeTurn(2),
                   Pair(BlockedTask(First(), op, 2), Second().(pc := Code), x.(users := 1), Some(2), 3), run);
    run := Prepend(Pair(First().(pc := Code), Second(), x, Some(1), 2), CallOf(op, 1),
                   Pair(BlockedTask(First(), op, 2), Second(), x.(users := 1), Some(2), 3), run);
    run := Prepend(Pair(First(), Second(), x, Some(1), 2), DoTakeTurn(1),
                   Pair(First().(pc := Code), Second(), x, Some(1), 2), run);
    run := Prepend(Pair(First(), Second(), x, None, 2), DoDispatch, Pair(First(), Second(), x, Some(1), 2), run);
    run := Prepend(World([First()], Code, [x], None, 1), DoCreate(Host(0), 1, 0), Pair(First(), Second(), x, None, 2),
                   run);
    run := Prepend(Opened(x), DoCreate(Host(0), 1, 0), World([First()], Code, [x], None, 1), run);
  }

  function Empty(): Queue { QueueWith(1, [], 0, [], [], []) }

  function WokenFirst(op: Op): Task { ReleasedTask(BlockedTask(First(), op, 2), Ready) }

  function Fed(): Kernel {
    Pair(WokenFirst(ReceiveOp(0)), BlockedTask(Second(), ReceiveOp(0), 3), QueueWith(1, [A], 2, [A], [], []), Some(1),
         4)
  }

  function Stopped(): Kernel {
    World([StoppedTask(WokenFirst(ReceiveOp(0))), BlockedTask(Second(), ReceiveOp(0), 3)], Join(1),
          [QueueWith(1, [A], 2, [A], [], [])], None, 4)
  }

  lemma Feeds()
    ensures Steps(BothBlocked(Empty(), ReceiveOp(0)), DoSend(Host(0), 0, A, false, 0), Fed())
  {
    var k := BothBlocked(Empty(), ReceiveOp(0));
    var pushed := Push(k, 0, A, false);
    assert pushed.queues[0] == Fed().queues[0] by { assert [] + [A] == [A]; }
    assert pushed.queues == Fed().queues;
    Choice(pushed, 0, Receiving);
    var released := Release(pushed, 1, Ready);
    assert released.tasks == Fed().tasks;
    Choice(released, 0, Receiving);
  }

  lemma Stops()
    ensures Steps(Fed(), DoDelete(Host(0), 1), Stopped())
  {
    assert Next(Fed(), DoDelete(Host(0), 1)).tasks == Stopped().tasks;
  }

  /** An item is queued and a task is blocked receiving, but nobody is on the way to take the item. */
  predicate WakeupLost(k: Kernel) {
    && |k.tasks| == 3 && |k.queues| == 1 && k.queues[0].items == [A]
    && WaitsOn(k.tasks[2], 0, Receiving) && Woken(k, 0, Receiving) == {}
  }

  lemma LosesItsWakeup()
    ensures Enabled(Stopped(), DoResume(1))
    ensures WakeupLost(Next(Stopped(), DoResume(1)))
  {
    var awake := Awaken(Stopped(), 1);
    assert awake.tasks[2] == BlockedTask(Second(), ReceiveOp(0), 3) && awake.tasks[1].pc == Code;
    var k := Dispatch(awake);
    assert k.tasks == awake.tasks;
  }

  lemma EmptyIsMade()
    ensures MustWait(Empty(), ReceiveOp(0)) && Opened(Empty()) == QueueMade() && Initial(Booted())
  {
  }

  /** Stopping a receiver that was just woken loses the wake-up: the item stays queued, another receiver stays blocked
      on the same queue, and nobody is on the way to take it. */
  lemma StopLosesWakeup() returns (run: seq<Step>)
    ensures Initial(Booted()) && IsRun(Booted(), run)
    ensures WakeupLost(After(Booted(), run))
  {
    hide Enabled, Next, Fed, Stopped, BothBlocked, WakeupLost, Empty, World, Opened, Booted, Initial, MustWait;
    hide QueueMade, SenderMade;
    Feeds();
    Stops();
    LosesItsWakeup();
    Creates();
    EmptyIsMade();
    run := Prepend(Stopped(), DoResume(1), Next(Stopped(), DoResume(1)), []);
    run := Prepend(Fed(), DoDelete(Host(0), 1), Stopped(), run);
    run := Prepend(BothBlocked(Empty(), ReceiveOp(0)), DoSend(Host(0), 0, A, false, 0), Fed(), run);
    run := RunToBlocked(Empty(), ReceiveOp(0), run);
    run := Prepend(Booted(), DoNewQueue(1), Opened(Empty()), run);
  }

  function Full(): Queue { QueueWith(2, [A, B], 0, [A, B], [], []) }
  function HalfFull(): Queue { QueueWith(2, [A], 0, [A], [], []) }
  function New(): Queue { QueueWith(2, [], 0, [], [], []) }
  const SEND_C: Op := SendOp(0, [3], false)

  lemma FillsUp()
    ensures Steps(Booted(), DoNewQueue(2), Opened(New()))
    ensures Steps(Opened(New()), DoSend(Host(0), 0, A, false, 0), Opened(HalfFull()))
    ensures Steps(Opened(HalfFull()), DoSend(Host(0), 0, B, false, 0), Opened(Full()))
  {
    hide Steps;
    OpensTwo();
    FillsHalf();
    FillsRest();
  }

  lemma OpensTwo()
    ensures Steps(Booted(), DoNewQueue(2), Opened(New()))
  {
    assert Next(Booted(), DoNewQueue(2)).queues == Opened(New()).queues;
  }

  lemma FillsHalf()
    ensures Steps(Opened(New()), DoSend(Host(0), 0, A, false, 0), Opened(HalfFull()))
  {
    hide NextRunnable, QueueWaiter;
    var half := Push(Opened(New()), 0, A, false);
    assert half.queues[0] == HalfFull() by { assert [] + [A] == [A]; }
    assert half.queues == [HalfFull()];
    Choice(half, 0, Receiving);
  }

  lemma FillsRest()
    ensures Steps(Opened(HalfFull()), DoSend(Host(0), 0, B, false, 0), Opened(Full()))
  {
    hide NextRunnable, QueueWaiter;
    var full := Push(Opened(HalfFull()), 0, B, false);
    assert full.queues[0] == Full() by { assert [A] + [B] == [A, B]; }
    assert full.queues == [Full()];
    Choice(full, 0, Receiving);
  }

  /** Two slots are free and a task is blocked sending, but only one woken sender is on the way. */
  predicate SenderStranded(k: Kernel) {
    && |k.tasks| == 3 && |k.queues| == 1 && k.queues[0].items == [] && k.queues[0].capacity == 2
    && WaitsOn(k.tasks[2], 0, Sending) && Woken(k, 0, Sending) == {1}
  }

  lemma ResetWakesOne()
    ensures Enabled(BothBlocked(Full(), SEND_C), DoResetQueue(Host(0), 0))
    ensures SenderStranded(Next(BothBlocked(Full(), SEND_C), DoResetQueue(Host(0), 0)))
  {
    hide NextRunnable, QueueWaiter;
    var k := BothBlocked(Full(), SEND_C);
    var x := k.queues[0];
    var cleared := SetQueue(k, 0, x.(items := [], discarded := x.discarded + x.items));
    Choice(cleared, 0, Sending);
    var released := Release(cleared, 1, Ready);
    Choice(released, 0, Sending);
    var r := Dispatch(released);
    assert r.tasks == [TimerRecord(), WokenFirst(SEND_C), BlockedTask(Second(), SEND_C, 3)];
  }

  /** Resetting a full queue with two blocked senders wakes one of them: the other stays blocked although the queue
      has two free slots and only one sender is on its way. */
  lemma ResetStrandsSender() returns (run: seq<Step>)
    ensures Initial(Booted()) && IsRun(Booted(), run)
    ensures SenderStranded(After(Booted(), run))
  {
    FillsUp();
    assert MustWait(Full(), SEND_C) && Initial(Booted());
    hide Enabled, Next, BothBlocked, SenderStranded, Full, HalfFull, New, World, Opened, Booted, Initial, MustWait;
    run := ResetTail();
    run := RunToBlocked(Full(), SEND_C, run);
    run := Prepend(Opened(HalfFull()), DoSend(Host(0), 0, B, false, 0), Opened(Full()), run);
    run := Prepend(Opened(New()), DoSend(Host(0), 0, A, false, 0), Opened(HalfFull()), run);
    run := Prepend(Booted(), DoNewQueue(2), Opened(New()), run);
  }

  lemma ResetTail() returns (run: seq<Step>)
    ensures IsRun(BothBlocked(Full(), SEND_C), run) && SenderStranded(After(BothBlocked(Full(), SEND_C), run))
  {
    ResetWakesOne();
    hide Enabled, Next, BothBlocked, SenderStranded, Full;
    run := Prepend(BothBlocked(Full(), SEND_C), DoResetQueue(Host(0), 0),
                   Next(BothBlocked(Full(), SEND_C), DoResetQueue(Host(0), 0)), []);
  }

  // ----- a wait that is too long

  function Alone(t: Task, running: Option<nat>): Kernel { World([t], Code, [Empty()], running, 1) }

  lemma StartsAlone()
    ensures Steps(Alone(Sender(), None), DoDispatch, Alone(Sender(), Some(1)))
    ensures Steps(Alone(Sender(), Some(1)), DoTakeTurn(1), Alone(Sender().(pc := Code), Some(1)))
  {
    Choice(Alone(Sender(), None), 0, Sending);
    assert TakeTurn(Alone(Sender(), Some(1)), 1).tasks == Alone(Sender().(pc := Code), Some(1)).tasks;
  }

  function Waits(ticks: nat): Step { DoReceive(Worker(1), 0, ticks) }

  /** The one task is about to receive from an empty queue. */
  function AboutToReceive(): Kernel { Alone(Sender().(pc := Code), Some(1)) }

  lemma AboutToWait(ticks: nat)
    requires 0 < ticks < MAX_DELAY
    ensures Enabled(AboutToReceive(), Waits(ticks)) && BlocksFor(AboutToReceive(), Waits(ticks), 1, ticks)
            && AboutToReceive().micros == 0
  {
  }

  const LONG: nat := HALF_WRAP + 1

  lemma WaitsTooLong() returns (run: seq<Step>)
    ensures IsRun(AboutToReceive(), run)
    ensures TimedOutAtOnce(After(AboutToReceive(), run))
  {
    AboutToWait(LONG);
    hide Enabled, Next, AboutToReceive, BlocksFor;
    TooLongTimesOutAtOnceIff(AboutToReceive(), Waits(LONG), 1, LONG, false);
    run := NoTimePasses(Next(AboutToReceive(), Waits(LONG)));
    run := Prepend(AboutToReceive(), Waits(LONG), Next(AboutToReceive(), Waits(LONG)), run);
  }

  lemma Ticks(r: Kernel, elapsed: nat)
    requires |r.tasks| > 0
    ensures Enabled(r, DoAdvance(elapsed, false)) && Next(r, DoAdvance(elapsed, false)) == Advance(r, elapsed, false)
  {
    hide Advance;
  }

  lemma NoTimePasses(r: Kernel) returns (run: seq<Step>)
    requires |r.tasks| > 1 && r.tasks[1].pc == Wait(ReceiveOp(0)) && r.micros == 0
             && TimesOut(r, Advance(r, 0, false), 1)
    ensures IsRun(r, run) && TimedOutAtOnce(After(r, run))
  {
    AdvancedTask(r, 0, false, 1);
    Ticks(r, 0);
    hide Enabled, Next, Advance;
    run := Prepend(r, DoAdvance(0, false), Advance(r, 0, false), []);
  }

  /** A receive that was to wait more than 2^31 ticks has timed out although the clock has not moved. */
  predicate TimedOutAtOnce(k: Kernel) {
    && |k.tasks| > 1 && k.tasks[1].pc == Wait(ReceiveOp(0)) && !k.tasks[1].blocked && k.tasks[1].wait.result == Timeout
    && k.micros == 0
  }

  lemma LongWaitEndsAtOnce() returns (run: seq<Step>)
    ensures Initial(Booted()) && IsRun(Booted(), run)
    ensures TimedOutAtOnce(After(Booted(), run))
  {
    run := WaitsTooLong();
    run := RunToReady(run);
  }

  /** From boot to the one task about to receive. */
  lemma RunToReady(rest: seq<Step>) returns (run: seq<Step>)
    requires IsRun(AboutToReceive(), rest)
    ensures Initial(Booted()) && IsRun(Booted(), run) && After(Booted(), run) == After(AboutToReceive(), rest)
  {
    Creates();
    assert Initial(Booted()) && Alone(Sender(), None) == SenderMade();
    StartsAlone();
    assert AboutToReceive() == Alone(Sender().(pc := Code), Some(1));
    hide Enabled, Next, World, Empty, QueueMade, SenderMade, Alone, AboutToReceive, Booted, Initial;
    run := Prepend(Alone(Sender(), Some(1)), DoTakeTurn(1), AboutToReceive(), rest);
    run := Prepend(Alone(Sender(), None), DoDispatch, Alone(Sender(), Some(1)), run);
    run := Prepend(QueueMade(), DoCreate(Host(0), 1, 0), SenderMade(), run);
    run := Prepend(Booted(), DoNewQueue(1), QueueMade(), run);
  }

  // ----- a clock step that is too long

  /** A receive is overdue by 2^31 ms and still blocked. */
  predicate OverdueStaysBlocked(k: Kernel) {
    && |k.tasks| > 1 && k.tasks[1].pc == Wait(ReceiveOp(0)) && k.tasks[1].blocked && k.tasks[1].wait.timed
    && Millis(k.micros) == k.tasks[1].wait.due + HALF_WRAP
  }

  lemma StepsOver() returns (run: seq<Step>)
    ensures IsRun(AboutToReceive(), run)
    ensures OverdueStaysBlocked(After(AboutToReceive(), run))
  {
    AboutToWait(1);
    hide Enabled, Next, AboutToReceive, BlocksFor;
    var r := Next(AboutToReceive(), Waits(1));
    BlockedFor(AboutToReceive(), Waits(1), 1, 1);
    BlockedWait(AboutToReceive(), 1, ReceiveOp(0), 1);
    hide BlockIn, Dispatch, DeadlineReached;
    var elapsed := 1000 * LONG;
    LongStepMisses(r);
    AdvancedTask(r, elapsed, false, 1);
    Ticks(r, elapsed);
    hide Advance;
    run := Prepend(r, DoAdvance(elapsed, false), Advance(r, elapsed, false), []);
    run := Prepend(AboutToReceive(), Waits(1), r, run);
  }

  lemma LongStepMisses(r: Kernel)
    requires |r.tasks| > 1 && r.tasks[1].wait.deadline == 1 && r.micros == 0
    ensures !IsOverdue(Clock(r.micros + 1000 * LONG), r.tasks[1])
  {
    assert Elapsed(LONG % TICKS_WRAP, 1) == HALF_WRAP;
  }

  /** A clock step of 2^31 + 1 ms passes the deadline of a wait of one tick without ending it. */
  lemma LongStepLeavesOverdue() returns (run: seq<Step>)
    ensures Initial(Booted()) && IsRun(Booted(), run)
    ensures OverdueStaysBlocked(After(Booted(), run))
  {
    run := StepsOver();
    run := RunToReady(run);
  }
}
