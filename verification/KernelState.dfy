/** The state of the simulated FreeRTOS kernel, as one value.

    Every change of shared state happens inside one locked region, so a region is one atomic step.
    A thread's place in the code between regions is kept in its `Pc`. Fields marked (history) do not
    exist in the simulator; they only record what happened and no step reads them. */
module KernelState {
  import opened Selection

  const TICKS_WRAP: nat := 0x1_0000_0000
  const HALF_WRAP: nat := 0x8000_0000
  const MAX_DELAY: nat := 0xFFFF_FFFF

  type Item = seq<bv8>

  datatype Lifecycle = Running | StopRequested | Finished | Joining | Joined
  datatype WaitKind = NoWait | Delaying | Sending | Receiving | Notified | Locking
  datatype WaitResult = NoResult | Ready | Timeout | Cancelled

  /** A worker is scheduler task number `id`; a host thread (the UI, a test) is not a task. */
  datatype Thread = Worker(id: nat) | Host(id: nat)

  /** What a task blocked inside a kernel call will do once it is resumed. */
  datatype Op =
    | SendOp(queue: nat, item: Item, front: bool)
    | ReceiveOp(queue: nat)
    | TakeOp(clear: bool)
    | DelayOp

  datatype Pc =
    | Idle                                             // the timer service between callbacks
    | Code                                             // executing firmware code
    | Turn(use: Option<nat>)                           // waiting for the turn; `use`: still inside that queue's call
    | Wait(op: Op)                                     // inside a timed or untimed condition wait
    | LockWait(mutex: nat, order: nat, granted: bool)  // inside SchedulerMutex::lock
    | Drain(queue: nat)                                // queue deletion waiting for the queue's users
    | DrainTurn(queue: nat, drained: bool)             // queue deletion waiting for the turn again
    | Join(target: nat)                                // deletion waiting for the target to finish or be joined
    | Claimed(target: nat)                             // inside worker.join()
    | Exited

  /** wait_kind, wait_result, wait_queue, wait_has_deadline and wait_deadline of a task. */
  datatype WaitState = WaitState(
    kind: WaitKind,
    result: WaitResult,
    queue: Option<nat>,
    timed: bool,
    deadline: nat,
    due: nat)  // (history) the deadline in unwrapped milliseconds

  datatype Notes = Notes(
    count: nat,  // notification_count
    gives: nat,  // (history) notifications given
    cleared: nat,  // (history) notifications taken by clearing the count
    singles: nat,  // (history) notifications taken one at a time
    wraps: nat)  // (history) times the 32-bit count wrapped to zero

  datatype Life = Life(
    cycle: Lifecycle,
    claimant: Option<Thread>,  // join_claimed is claimant.Some?; who claimed is (history)
    joins: nat)                // (history) completed joins of the worker thread

  datatype Heap = Heap(
    bytes: nat,
    charged: bool,
    charge: nat,         // (history) heap charged at creation
    released: seq<nat>)  // (history) heap releases

  datatype Task = Task(
    pc: Pc,
    priority: nat,
    readyOrder: nat,
    waitOrder: nat,
    stopping: bool,
    blocked: bool,
    runnable: bool,
    parked: bool,
    wait: WaitState,
    notes: Notes,
    life: Life,
    heap: Heap)

  datatype Queue = Queue(
    capacity: nat,
    items: seq<Item>,
    deleted: bool,
    users: nat,
    deleter: Option<Thread>,  // (history) who set `deleted`
    freed: bool,           // (history) the queue's memory was released
    accepted: seq<Item>,   // (history) items pushed, in order
    received: seq<Item>,   // (history) items handed to receivers, in order
    discarded: seq<Item>,  // (history) items dropped by reset or delete
    fronted: bool)         // (history) some push went to the front

  datatype Waiter = Waiter(thread: Thread, order: nat)

  /** Who holds a mutex: `Granted` from the hand-off until lock() returns, `Held` afterwards. */
  datatype Owner = Free | Granted(thread: Thread) | Held(thread: Thread)

  datatype Mutex = Mutex(
    locked: bool,
    waiters: seq<Waiter>,  // the linked list, head first
    owner: Owner)          // (history)

  datatype Kernel = Kernel(
    tasks: seq<Task>,      // tasks[0] is the timer service record, tasks[1..] the registry
    hosts: seq<Pc>,
    queues: seq<Queue>,
    mutexes: seq<Mutex>,
    running: Option<nat>,
    nextReady: nat,
    micros: nat,
    stopping: bool,
    timerExecuting: bool)

  // ----- reading the state

  function Millis(micros: nat): nat { micros / 1000 }

  /** clockMillis(): the low 32 bits of the millisecond count. */
  function Clock(micros: nat): nat { Millis(micros) % TICKS_WRAP }

  /** Furble::Time::elapsed on unsigned 32-bit values. */
  function Elapsed(now: int, since: int): nat { (now - since) % TICKS_WRAP }

  /** Furble::Time::deadlineReached: the signed 32-bit reading of now - deadline is not negative. */
  predicate DeadlineReached(now: int, deadline: int) { Elapsed(now, deadline) < HALF_WRAP }

  predicate IsThread(k: Kernel, th: Thread) {
    match th
    case Worker(i) => i < |k.tasks|
    case Host(n) => n < |k.hosts|
  }

  function PcOf(k: Kernel, th: Thread): Pc
    requires IsThread(k, th)
  {
    match th
    case Worker(i) => k.tasks[i].pc
    case Host(n) => k.hosts[n]
  }

  function KindOf(op: Op): WaitKind {
    match op
    case SendOp(_, _, _) => Sending
    case ReceiveOp(_) => Receiving
    case TakeOp(_) => Notified
    case DelayOp => Delaying
  }

  function QueueOf(op: Op): Option<nat> {
    match op
    case SendOp(q, _, _) => Some(q)
    case ReceiveOp(q) => Some(q)
    case _ => None
  }

  /** taskReadyForDispatch. */
  predicate ReadyTask(stopping: bool, t: Task) {
    t.runnable && !t.blocked && !t.parked && !t.stopping && !stopping && t.life.cycle == Running
  }

  /** A stopping task, or any thread once the scheduler stops, leaves its waits without their result. */
  predicate StoppingThread(k: Kernel, th: Thread)
    requires IsThread(k, th)
  {
    k.stopping || (th.Worker? && k.tasks[th.id].stopping)
  }

  predicate HasTurn(k: Kernel, th: Thread) {
    th.Host? || k.running == Some(th.id)
  }
}
