/** The steps of the scheduler-visible mutex keep the invariant. */
module MutexSafety {
  import opened Selection
  import opened KernelState
  import opened KernelSteps
  import opened KernelMachine
  import opened KernelInvariant
  import opened KernelPrimitives
  import opened QueueSafety

  // ----- the mutex

  /** Everything but the mutexes: enough for the steps that only touch one of them. */
  lemma MutexStepKeeps(k: Kernel, m: nat, x: Mutex)
    requires KernelOk(k) && m < |k.mutexes|
    requires MutexOk(SetMutex(k, m, x), m)
    requires x.waiters == k.mutexes[m].waiters && !k.mutexes[m].owner.Granted? && !x.owner.Granted?
    ensures KernelOk(SetMutex(k, m, x))
  {
    var r := SetMutex(k, m, x);
    NotMutexes(k, r);
    forall n | 0 <= n < |r.mutexes| ensures MutexOk(r, n) { assert MutexOk(k, n); }
    forall i | 0 <= i < |r.tasks| ensures LockPcOk(r, Worker(i), r.tasks[i].pc) {
      assert LockPcOk(k, Worker(i), k.tasks[i].pc);
    }
    forall n | 0 <= n < |r.hosts| ensures LockPcOk(r, Host(n), r.hosts[n]) {
      assert LockPcOk(k, Host(n), k.hosts[n]);
    }
  }

  lemma NotMutexes(k: Kernel, r: Kernel)
    requires KernelOk(k) && r == k.(mutexes := r.mutexes)
    ensures TasksOk(r) && StampsOk(r) && JoinsOk(r) && QueuesOk(r)
  {
    hide MutexesOk, QueuesOk, JoinsOk;
    assert r.tasks == k.tasks && r.hosts == k.hosts && r.queues == k.queues;
    forall i | 0 <= i < |r.tasks| ensures TaskOk(r, i) { assert TaskOk(k, i); }
    SameJoinsKeep(k, r);
    SameUsesKeep(k, r);
  }

  lemma FastLockKeeps(k: Kernel, th: Thread, m: nat)
    requires KernelOk(k) && Calls(k, th) && m < |k.mutexes| && !k.mutexes[m].locked
    ensures KernelOk(SetMutex(k, m, k.mutexes[m].(locked := true, owner := Held(th))))
  {
    assert MutexOk(k, m);
    var x := k.mutexes[m].(locked := true, owner := Held(th));
    assert MutexOk(SetMutex(k, m, x), m);
    MutexStepKeeps(k, m, x);
  }

  /** Only thread `th` moved, to `pc`. */
  ghost predicate OnlyMoved(k: Kernel, r: Kernel, th: Thread, pc: Pc) {
    && |r.tasks| == |k.tasks| && |r.hosts| == |k.hosts| && r.nextReady >= k.nextReady
    && (forall i {:trigger r.tasks[i]} {:trigger k.tasks[i]} :: 0 <= i < |k.tasks| ==>
          r.tasks[i].stopping == k.tasks[i].stopping && r.tasks[i].pc == if th == Worker(i) then pc else k.tasks[i].pc)
    && (forall n {:trigger r.hosts[n]} {:trigger k.hosts[n]} :: 0 <= n < |k.hosts| ==>
          r.hosts[n] == if th == Host(n) then pc else k.hosts[n])
  }

  lemma MovedPc(k: Kernel, r: Kernel, th: Thread, pc: Pc, other: Thread)
    requires OnlyMoved(k, r, th, pc) && IsThread(k, other)
    ensures IsThread(r, other) && PcOf(r, other) == if other == th then pc else PcOf(k, other)
  {
  }

  /** All of MutexesOk for the mutexes other than `m` and the threads other than `th`. */
  lemma OtherMutexes(k: Kernel, r: Kernel, th: Thread, pc: Pc, m: nat)
    requires MutexesOk(k) && IsThread(k, th) && OnlyMoved(k, r, th, pc) && !pc.Exited? && !pc.Idle?
    requires m < |k.mutexes| == |r.mutexes| && r.mutexes == k.mutexes[m := r.mutexes[m]]
    requires PcOf(k, th).LockWait? ==> PcOf(k, th).mutex == m
    requires MutexOk(r, m) && LockPcOk(r, th, pc)
    requires forall w :: w in k.mutexes[m].waiters && w.thread != th ==> w in r.mutexes[m].waiters
    requires k.mutexes[m].owner.Granted? && k.mutexes[m].owner.thread != th ==> r.mutexes[m].owner == k.mutexes[m].owner
    ensures MutexesOk(r)
  {
    forall n | 0 <= n < |r.mutexes| ensures MutexOk(r, n) {
      if n != m {
        assert MutexOk(k, n);
        OtherMutex(k, r, th, pc, n);
      }
    }
    forall i | 0 <= i < |r.tasks| ensures LockPcOk(r, Worker(i), r.tasks[i].pc) {
      assert LockPcOk(k, Worker(i), k.tasks[i].pc);
    }
    forall i | 0 <= i < |r.hosts| ensures LockPcOk(r, Host(i), r.hosts[i]) {
      assert LockPcOk(k, Host(i), k.hosts[i]);
    }
  }

  lemma OtherMutex(k: Kernel, r: Kernel, th: Thread, pc: Pc, n: nat)
    requires OnlyMoved(k, r, th, pc) && IsThread(k, th) && n < |k.mutexes| == |r.mutexes|
             && r.mutexes[n] == k.mutexes[n]
    requires MutexOk(k, n) && !pc.Exited? && !pc.Idle?
    requires PcOf(k, th).LockWait? ==> PcOf(k, th).mutex != n
    ensures MutexOk(r, n)
  {
    var x := k.mutexes[n];
    forall j | 0 <= j < |x.waiters| ensures LinkOk(r, n, x.waiters[j]) {
      assert LinkOk(k, n, x.waiters[j]);
      MovedPc(k, r, th, pc, x.waiters[j].thread);
    }
    if x.owner != Free { MovedPc(k, r, th, pc, x.owner.thread); }
    if !x.locked {
      forall j | 0 <= j < |x.waiters| ensures IsStoppingTask(r, x.waiters[j].thread) {
        assert IsStoppingTask(k, x.waiters[j].thread);
      }
    }
  }

  /** A contended lock() links its waiter at the head of the list. */
  lemma LinkMutexes(k: Kernel, r: Kernel, th: Thread, m: nat)
    requires MutexesOk(k) && Calls(k, th) && m < |k.mutexes| && k.mutexes[m].locked
    requires OnlyMoved(k, r, th, LockWait(m, k.nextReady, false)) && r.nextReady == k.nextReady + 1
    requires r.mutexes == k.mutexes[m := k.mutexes[m].(waiters := [Waiter(th, k.nextReady)] + k.mutexes[m].waiters)]
    ensures MutexesOk(r)
  {
    var x := k.mutexes[m];
    var pc := LockWait(m, k.nextReady, false);
    assert MutexOk(k, m);
    var ws := r.mutexes[m].waiters;
    forall j | 0 <= j < |ws| ensures LinkOk(r, m, ws[j]) {
      if j > 0 {
        assert ws[j] == x.waiters[j - 1] && LinkOk(k, m, x.waiters[j - 1]);
        MovedPc(k, r, th, pc, ws[j].thread);
      }
    }
    forall i, j | 0 <= i < j < |ws| ensures ws[i].order > ws[j].order {
      assert ws[j] == x.waiters[j - 1] && LinkOk(k, m, x.waiters[j - 1]);
    }
    MovedPc(k, r, th, pc, x.owner.thread);
    OtherMutexes(k, r, th, pc, m);
  }

  lemma LockKeeps(k: Kernel, th: Thread, m: nat)
    requires KernelOk(k) && Enabled(k, DoLock(th, m))
    ensures KernelOk(Lock(k, th, m))
  {
    hide KernelOk, BlockOn, Dispatch;
    if !k.mutexes[m].locked {
      FastLockKeeps(k, th, m);
    } else {
      var order := k.nextReady;
      var linked := SetMutex(k, m, k.mutexes[m].(waiters := [Waiter(th, order)] + k.mutexes[m].waiters));
      match th
      case Worker(c) =>
        LinkWorkerKeeps(k, linked, c, m);
        DispatchKeeps(BlockOn(linked, c, Locking, None, false, 0, LockWait(m, order, false)));
      case Host(n) => LinkHostKeeps(k, linked, n, m);
    }
  }

  /** A lock step of task `c`: all of the invariant but the mutexes' part. */
  lemma WorkerLockKeeps(k: Kernel, r: Kernel, c: nat)
    requires KernelOk(k) && OnlyTask(k, r, c) && TaskOk(r, c) && StampsStep(k, r, c)
    requires r.queues == k.queues && r.hosts == k.hosts
    requires r.tasks[c].life == k.tasks[c].life && r.tasks[c].stopping == k.tasks[c].stopping
    requires k.tasks[c].pc.Code? || k.tasks[c].pc.LockWait?
    requires r.tasks[c].pc.Code? || r.tasks[c].pc.LockWait?
    ensures TasksOk(r) && StampsOk(r) && JoinsOk(r) && QueuesOk(r)
  {
    hide TasksOk, StampsOk, MutexesOk, JoinsOk, QueuesOk, TaskOk, SameJoins, SameUses;
    OnlyTaskOk(k, r, c);
    if r.nextReady == k.nextReady { StampsKept(k, r); } else { StampsRenewed(k, r, c); }
    LockFrames(k, r, c);
    SameJoinsKeep(k, r);
    SameUsesKeep(k, r);
  }

  lemma LockFrames(k: Kernel, r: Kernel, c: nat)
    requires OnlyTask(k, r, c) && r.queues == k.queues && r.hosts == k.hosts
    requires r.tasks[c].life == k.tasks[c].life && r.tasks[c].stopping == k.tasks[c].stopping
    requires k.tasks[c].pc.Code? || k.tasks[c].pc.LockWait?
    requires r.tasks[c].pc.Code? || r.tasks[c].pc.LockWait?
    ensures SameJoins(k, r) && SameUses(k, r)
  {
  }

  /** The same for a host thread. */
  lemma HostLockKeeps(k: Kernel, r: Kernel, n: nat, pc: Pc)
    requires KernelOk(k) && n < |k.hosts|
             && r == k.(mutexes := r.mutexes, hosts := k.hosts[n := pc], nextReady := r.nextReady)
    requires r.nextReady >= k.nextReady && (k.hosts[n].Code? || k.hosts[n].LockWait?) && (pc.Code? || pc.LockWait?)
    ensures TasksOk(r) && StampsOk(r) && JoinsOk(r) && QueuesOk(r)
  {
    hide MutexesOk, JoinsOk, QueuesOk;
    forall i | 0 <= i < |r.tasks| ensures TaskOk(r, i) { assert TaskOk(k, i); }
    StampsKept(k, r);
    SameJoinsKeep(k, r);
    SameUsesKeep(k, r);
  }

  lemma LinkWorkerKeeps(k: Kernel, linked: Kernel, c: nat, m: nat)
    requires KernelOk(k) && Calls(k, Worker(c)) && m < |k.mutexes| && k.mutexes[m].locked
    requires linked == SetMutex(k, m, k.mutexes[m].(waiters := [Waiter(Worker(c), k.nextReady)] + k.mutexes[m].waiters))
    ensures KernelOk(BlockOn(linked, c, Locking, None, false, 0, LockWait(m, k.nextReady, false)))
  {
    hide TasksOk, StampsOk, JoinsOk, QueuesOk;
    var r := BlockOn(linked, c, Locking, None, false, 0, LockWait(m, k.nextReady, false));
    LinkMutexes(k, r, Worker(c), m);
    Facts(k, c);
    LockingTask(k, linked, c, LockWait(m, k.nextReady, false));
    WorkerLockKeeps(k, r, c);
  }

  lemma LockingTask(k: Kernel, linked: Kernel, c: nat, pc: Pc)
    requires c < |k.tasks| && k.tasks[c].pc == Code && TaskOk(k, c)
    requires linked == k.(mutexes := linked.mutexes) && pc.LockWait? && pc.order == k.nextReady && !pc.granted
    ensures TaskOk(BlockOn(linked, c, Locking, None, false, 0, pc), c)
  {
  }

  lemma LinkHostKeeps(k: Kernel, linked: Kernel, n: nat, m: nat)
    requires KernelOk(k) && Calls(k, Host(n)) && m < |k.mutexes| && k.mutexes[m].locked
    requires linked == SetMutex(k, m, k.mutexes[m].(waiters := [Waiter(Host(n), k.nextReady)] + k.mutexes[m].waiters))
    ensures KernelOk(SetPc(linked, Host(n), LockWait(m, k.nextReady, false)).(nextReady := k.nextReady + 1))
  {
    hide TasksOk, StampsOk, JoinsOk, QueuesOk;
    var r := SetPc(linked, Host(n), LockWait(m, k.nextReady, false)).(nextReady := k.nextReady + 1);
    LinkMutexes(k, r, Host(n), m);
    HostLockKeeps(k, r, n, LockWait(m, k.nextReady, false));
  }

  // ----- handing the mutex over

  predicate Decreasing(ws: seq<Waiter>) {
    forall i, j :: 0 <= i < j < |ws| ==> ws[i].order > ws[j].order
  }

  lemma {:induction false} UnlinkedMembers(ws: seq<Waiter>, th: Thread, w: Waiter)
    ensures w in Unlinked(ws, th) ==> w in ws
    ensures w in ws && w.thread != th ==> w in Unlinked(ws, th)
  {
    if ws != [] && ws[0].thread != th {
      UnlinkedMembers(ws[1..], th, w);
      assert ws == [ws[0]] + ws[1..];
    } else if ws != [] {
      assert ws == [ws[0]] + ws[1..];
    }
  }

  lemma {:induction false} UnlinkedOrder(ws: seq<Waiter>, th: Thread)
    requires Decreasing(ws)
    ensures Decreasing(Unlinked(ws, th))
  {
    if ws != [] && ws[0].thread != th {
      UnlinkedOrder(ws[1..], th);
      var kept := Unlinked(ws[1..], th);
      forall j | 0 <= j < |kept| ensures ws[0].order > kept[j].order {
        UnlinkedMembers(ws[1..], th, kept[j]);
        var i :| 0 <= i < |ws[1..]| && ws[1..][i] == kept[j];
        assert ws[i + 1] == kept[j];
      }
    }
  }

  lemma {:induction false} UnlinkedGone(ws: seq<Waiter>, th: Thread, order: nat)
    requires Decreasing(ws) && forall w :: w in ws && w.thread == th ==> w.order == order
    ensures forall w :: w in Unlinked(ws, th) ==> w.thread != th
  {
    if ws != [] && ws[0].thread != th {
      forall w | w in ws[1..] && w.thread == th ensures w.order == order { assert w in ws; }
      UnlinkedGone(ws[1..], th, order);
    } else if ws != [] {
      forall w | w in ws[1..] ensures w.thread != th {
        var j :| 0 <= j < |ws[1..]| && ws[1..][j] == w;
        assert ws[0].order > ws[j + 1].order && ws[j + 1] == w && ws[0] in ws && w in ws;
      }
    }
  }

  /** With one entry per thread, unlinking removes the thread and keeps everyone else in order. */
  lemma UnlinkedKeeps(ws: seq<Waiter>, th: Thread, order: nat)
    requires Decreasing(ws) && forall w :: w in ws && w.thread == th ==> w.order == order
    ensures Decreasing(Unlinked(ws, th))
    ensures forall w :: w in Unlinked(ws, th) <==> w in ws && w.thread != th
  {
    UnlinkedOrder(ws, th);
    UnlinkedGone(ws, th, order);
    forall w ensures w in Unlinked(ws, th) <==> w in ws && w.thread != th { UnlinkedMembers(ws, th, w); }
  }

  /** Mutex `m` is locked but belongs to nobody any more; everything else is in order. */
  ghost predicate Vacant(k: Kernel, m: nat) {
    && m < |k.mutexes|
    && (forall n {:trigger k.mutexes[n]} {:trigger MutexOk(k, n)} :: 0 <= n < |k.mutexes| && n != m ==> MutexOk(k, n))
    && (forall j {:trigger k.mutexes[m].waiters[j]} :: 0 <= j < |k.mutexes[m].waiters| ==>
          LinkOk(k, m, k.mutexes[m].waiters[j]))
    && Decreasing(k.mutexes[m].waiters) && k.mutexes[m].locked
    && (forall i {:trigger k.tasks[i]} :: 0 <= i < |k.tasks| ==> VacantPc(k, m, Worker(i), k.tasks[i].pc))
    && (forall n {:trigger k.hosts[n]} :: 0 <= n < |k.hosts| ==> VacantPc(k, m, Host(n), k.hosts[n]))
  }

  predicate VacantPc(k: Kernel, m: nat, th: Thread, pc: Pc) {
    LockPcOk(k, th, pc) && !(pc.LockWait? && pc.mutex == m && pc.granted)
  }

  /** With only stopping waiters left the mutex is free. */
  lemma FreeMutexes(k: Kernel, m: nat)
    requires Vacant(k, m) && forall j :: 0 <= j < |k.mutexes[m].waiters| ==> LockEntry(k, k.mutexes[m].waiters[j]).Out?
    ensures MutexesOk(SetMutex(k, m, k.mutexes[m].(locked := false, owner := Free)))
  {
    var r := SetMutex(k, m, k.mutexes[m].(locked := false, owner := Free));
    var ws := k.mutexes[m].waiters;
    forall n | 0 <= n < |r.mutexes| ensures MutexOk(r, n) {
      if n != m { assert MutexOk(k, n); }
      else {
        forall j | 0 <= j < |ws| ensures IsStoppingTask(r, ws[j].thread) {
          assert LinkOk(k, m, ws[j]) && LockEntry(k, ws[j]).Out?;
        }
      }
    }
    forall i | 0 <= i < |r.tasks| ensures LockPcOk(r, Worker(i), r.tasks[i].pc) {
      assert VacantPc(k, m, Worker(i), k.tasks[i].pc);
    }
    forall n | 0 <= n < |r.hosts| ensures LockPcOk(r, Host(n), r.hosts[n]) {
      assert VacantPc(k, m, Host(n), k.hosts[n]);
    }
  }

  /** The chosen waiter leaves the list and is the new owner. */
  lemma GrantMutexes(k: Kernel, r: Kernel, m: nat, w: Waiter)
    requires Vacant(k, m) && w in k.mutexes[m].waiters
    requires OnlyMoved(k, r, w.thread, LockWait(m, w.order, true))
    requires r.mutexes ==
               k.mutexes[m := k.mutexes[m].(waiters := Unlinked(k.mutexes[m].waiters, w.thread),
                                            owner := Granted(w.thread))]
    ensures MutexesOk(r)
  {
    var pc := LockWait(m, w.order, true);
    var ws := k.mutexes[m].waiters;
    forall v | v in ws ensures LinkOk(k, m, v) {
      var j :| 0 <= j < |ws| && ws[j] == v;
    }
    UnlinkedKeeps(ws, w.thread, w.order);
    var rest := r.mutexes[m].waiters;
    forall j | 0 <= j < |rest| ensures LinkOk(r, m, rest[j]) {
      assert rest[j] in ws;
      MovedPc(k, r, w.thread, pc, rest[j].thread);
    }
    MovedPc(k, r, w.thread, pc, w.thread);
    assert MutexOk(r, m);
    forall n | 0 <= n < |r.mutexes| ensures MutexOk(r, n) {
      if n != m { assert MutexOk(k, n); OtherMutex(k, r, w.thread, pc, n); }
    }
    forall i | 0 <= i < |r.tasks| ensures LockPcOk(r, Worker(i), r.tasks[i].pc) {
      assert VacantPc(k, m, Worker(i), k.tasks[i].pc);
    }
    forall n | 0 <= n < |r.hosts| ensures LockPcOk(r, Host(n), r.hosts[n]) {
      assert VacantPc(k, m, Host(n), k.hosts[n]);
    }
  }

  lemma GrantKeeps(k: Kernel, m: nat, w: Waiter)
    requires Vacant(k, m) && TasksOk(k) && StampsOk(k) && JoinsOk(k) && QueuesOk(k)
    requires w in k.mutexes[m].waiters && LockEntry(k, w).In?
    ensures KernelOk(Grant(k, m, w))
  {
    var j :| 0 <= j < |k.mutexes[m].waiters| && k.mutexes[m].waiters[j] == w;
    assert LinkOk(k, m, w);
    hide Vacant, TasksOk, StampsOk, JoinsOk, QueuesOk, MutexesOk, Grant;
    if w.thread.Worker? { GrantWorkerKeeps(k, m, w); } else { GrantHostKeeps(k, m, w); }
  }

  function Reserved(k: Kernel, m: nat, w: Waiter): Kernel
    requires m < |k.mutexes| && IsThread(k, w.thread)
  {
    var x := k.mutexes[m];
    SetPc(SetMutex(k, m, x.(waiters := Unlinked(x.waiters, w.thread), owner := Granted(w.thread))), w.thread,
          LockWait(m, w.order, true))
  }

  lemma GrantHostKeeps(k: Kernel, m: nat, w: Waiter)
    requires Vacant(k, m) && TasksOk(k) && StampsOk(k) && JoinsOk(k) && QueuesOk(k)
    requires m < |k.mutexes| && w in k.mutexes[m].waiters && LinkOk(k, m, w) && w.thread.Host?
    ensures KernelOk(Grant(k, m, w))
  {
    hide Vacant, TasksOk, StampsOk, JoinsOk, QueuesOk, MutexesOk;
    var reserved := Reserved(k, m, w);
    GrantMutexes(k, reserved, m, w);
    GrantHostRest(k, reserved, w.thread.id);
  }

  lemma GrantWorkerKeeps(k: Kernel, m: nat, w: Waiter)
    requires Vacant(k, m) && TasksOk(k) && StampsOk(k) && JoinsOk(k) && QueuesOk(k)
    requires m < |k.mutexes| && w in k.mutexes[m].waiters && LinkOk(k, m, w) && w.thread.Worker? && LockEntry(k, w).In?
    ensures KernelOk(Grant(k, m, w))
  {
    hide Vacant, TasksOk, StampsOk, JoinsOk, QueuesOk, MutexesOk, Dispatch;
    var c := w.thread.id;
    LinkedWorkerBlocked(k, c);
    var released := Release(Reserved(k, m, w), c, Ready);
    GrantMutexes(k, released, m, w);
    GrantWorkerRest(k, released, c);
    DispatchKeeps(released);
  }

  lemma LinkedWorkerBlocked(k: Kernel, c: nat)
    requires TasksOk(k) && c < |k.tasks| && k.tasks[c].pc.LockWait? && !k.tasks[c].pc.granted && !k.tasks[c].stopping
    ensures k.tasks[c].blocked
  {
    assert TaskOk(k, c);
  }

  lemma GrantHostRest(k: Kernel, r: Kernel, n: nat)
    requires TasksOk(k) && StampsOk(k) && JoinsOk(k) && QueuesOk(k) && n < |k.hosts| == |r.hosts|
    requires r == k.(mutexes := r.mutexes, hosts := k.hosts[n := r.hosts[n]]) && k.hosts[n].LockWait?
             && r.hosts[n].LockWait?
    ensures TasksOk(r) && StampsOk(r) && JoinsOk(r) && QueuesOk(r)
  {
    hide JoinsOk, QueuesOk;
    forall i | 0 <= i < |r.tasks| ensures TaskOk(r, i) { assert TaskOk(k, i); }
    StampsKept(k, r);
    SameJoinsKeep(k, r);
    SameUsesKeep(k, r);
  }

  lemma GrantWorkerRest(k: Kernel, r: Kernel, c: nat)
    requires TasksOk(k) && StampsOk(k) && JoinsOk(k) && QueuesOk(k) && c < |k.tasks| == |r.tasks|
    requires r == k.(mutexes := r.mutexes, tasks := k.tasks[c := r.tasks[c]])
    requires k.tasks[c].pc.LockWait? && !k.tasks[c].pc.granted && !k.tasks[c].stopping
    requires r.tasks[c] == ReleasedTask(k.tasks[c], Ready).(pc := r.tasks[c].pc) && r.tasks[c].pc.LockWait?
             && r.tasks[c].pc.granted
    ensures TasksOk(r) && StampsOk(r) && JoinsOk(r) && QueuesOk(r)
  {
    hide JoinsOk, QueuesOk, StampsOk, TaskOk;
    assert TaskOk(k, c);
    GrantedTaskOk(k, r, c);
    OnlyTaskOk(k, r, c);
    StampsKept(k, r);
    SameJoinsKeep(k, r);
    SameUsesKeep(k, r);
  }

  lemma GrantedTaskOk(k: Kernel, r: Kernel, c: nat)
    requires c < |k.tasks| == |r.tasks| && TaskOk(k, c)
    requires r == k.(mutexes := r.mutexes, tasks := k.tasks[c := r.tasks[c]])
    requires k.tasks[c].pc.LockWait? && !k.tasks[c].pc.granted && !k.tasks[c].stopping
    requires r.tasks[c] == ReleasedTask(k.tasks[c], Ready).(pc := r.tasks[c].pc) && r.tasks[c].pc.LockWait?
             && r.tasks[c].pc.granted
    ensures TaskOk(r, c) && k.tasks[c].blocked
  {
  }

  lemma ReleaseMutexKeeps(k: Kernel, m: nat)
    requires Vacant(k, m) && TasksOk(k) && StampsOk(k) && JoinsOk(k) && QueuesOk(k)
    ensures KernelOk(ReleaseMutex(k, m))
  {
    var x := k.mutexes[m];
    var entries := LockEntries(k, m);
    var chosen := Select(entries);
    if chosen.Some? {
      var w := x.waiters[chosen.value];
      assert LinkOk(k, m, w) && entries[chosen.value] == LockEntry(k, w);
      GrantKeeps(k, m, w);
    } else {
      forall j | 0 <= j < |x.waiters| ensures LockEntry(k, x.waiters[j]).Out? {
        assert entries[j] == LockEntry(k, x.waiters[j]);
      }
      var r := SetMutex(k, m, x.(locked := false, owner := Free));
      FreeMutexes(k, m);
      FreeRest(k, r);
    }
  }

  lemma FreeRest(k: Kernel, r: Kernel)
    requires TasksOk(k) && StampsOk(k) && JoinsOk(k) && QueuesOk(k) && r == k.(mutexes := r.mutexes)
    ensures TasksOk(r) && StampsOk(r) && JoinsOk(r) && QueuesOk(r)
  {
    hide JoinsOk, QueuesOk;
    assert r.tasks == k.tasks && r.hosts == k.hosts && r.queues == k.queues;
    forall i | 0 <= i < |r.tasks| ensures TaskOk(r, i) { assert TaskOk(k, i); }
    SameJoinsKeep(k, r);
    SameUsesKeep(k, r);
  }

  lemma UnlockVacates(k: Kernel, th: Thread, m: nat)
    requires KernelOk(k) && Enabled(k, DoUnlock(th, m))
    ensures Vacant(k, m)
  {
    assert MutexOk(k, m);
    forall i | 0 <= i < |k.tasks| ensures VacantPc(k, m, Worker(i), k.tasks[i].pc) {
      assert LockPcOk(k, Worker(i), k.tasks[i].pc);
    }
    forall n | 0 <= n < |k.hosts| ensures VacantPc(k, m, Host(n), k.hosts[n]) {
      assert LockPcOk(k, Host(n), k.hosts[n]);
    }
  }

  lemma UnlockKeeps(k: Kernel, th: Thread, m: nat)
    requires KernelOk(k) && Enabled(k, DoUnlock(th, m))
    ensures KernelOk(Unlock(k, th, m))
  {
    UnlockVacates(k, th, m);
    ReleaseMutexKeeps(k, m);
    CallerStays(k, th, m);
    hide KernelOk, ReleaseMutex;
    PreemptKeeps(ReleaseMutex(k, m), th, None);
  }

  lemma CallerStays(k: Kernel, th: Thread, m: nat)
    requires Vacant(k, m) && Calls(k, th)
    ensures Calls(ReleaseMutex(k, m), th)
  {
    hide NextRunnable;
    var chosen := Select(LockEntries(k, m));
    if chosen.Some? {
      assert LinkOk(k, m, k.mutexes[m].waiters[chosen.value]);
    }
  }

  lemma CancelVacates(k: Kernel, th: Thread)
    requires KernelOk(k) && Enabled(k, DoLockCancel(th)) && PcOf(k, th).granted
    ensures Vacant(SetPc(k, th, Code), PcOf(k, th).mutex)
  {
    var m := PcOf(k, th).mutex;
    var r := SetPc(k, th, Code);
    assert MutexOk(k, m);
    assert LockPcOk(k, th, PcOf(k, th));
    forall n | 0 <= n < |k.mutexes| && n != m ensures MutexOk(r, n) {
      assert MutexOk(k, n);
      OtherMutex(k, r, th, Code, n);
    }
    forall j | 0 <= j < |k.mutexes[m].waiters| ensures LinkOk(r, m, k.mutexes[m].waiters[j]) {
      assert LinkOk(k, m, k.mutexes[m].waiters[j]);
    }
    forall i | 0 <= i < |r.tasks| ensures VacantPc(r, m, Worker(i), r.tasks[i].pc) {
      assert LockPcOk(k, Worker(i), k.tasks[i].pc);
    }
    forall n | 0 <= n < |r.hosts| ensures VacantPc(r, m, Host(n), r.hosts[n]) {
      assert LockPcOk(k, Host(n), k.hosts[n]);
    }
  }

  /** Leaving lock() in a way that does not concern the mutexes. */
  lemma LeaveLock(k: Kernel, r: Kernel, th: Thread)
    requires KernelOk(k) && IsThread(k, th) && PcOf(k, th).LockWait?
    requires (th.Worker? && PcOf(k, th).granted && k.running == Some(th.id)) || StoppingThread(k, th) || th.Host?
    requires r == SetPc(k, th, Code).(mutexes := r.mutexes)
    ensures TasksOk(r) && StampsOk(r) && JoinsOk(r) && QueuesOk(r)
  {
    hide KernelOk;
    match th
    case Host(n) => HostLockKeeps(k, r, n, Code);
    case Worker(c) =>
      Facts(k, c);
      WorkerLockKeeps(k, r, c);
  }

  lemma LockReturnKeeps(k: Kernel, th: Thread)
    requires KernelOk(k) && Enabled(k, DoLockReturn(th))
    ensures KernelOk(LockReturn(k, th))
  {
    var m := PcOf(k, th).mutex;
    var r := LockReturn(k, th);
    LeaveLock(k, r, th);
    assert MutexOk(k, m);
    assert LockPcOk(k, th, PcOf(k, th));
    var ws := k.mutexes[m].waiters;
    forall j | 0 <= j < |ws| ensures LinkOk(r, m, ws[j]) {
      assert LinkOk(k, m, ws[j]);
      MovedPc(k, r, th, Code, ws[j].thread);
    }
    OtherMutexes(k, r, th, Code, m);
  }

  lemma LockCancelKeeps(k: Kernel, th: Thread)
    requires KernelOk(k) && Enabled(k, DoLockCancel(th))
    ensures KernelOk(LockCancel(k, th))
  {
    var m := PcOf(k, th).mutex;
    if PcOf(k, th).granted {
      var r := SetPc(k, th, Code);
      LeaveLock(k, r, th);
      CancelVacates(k, th);
      ReleaseMutexKeeps(r, m);
    } else {
      UnlinkKeeps(k, th, m);
    }
  }

  lemma UnlinkKeeps(k: Kernel, th: Thread, m: nat)
    requires KernelOk(k) && Enabled(k, DoLockCancel(th)) && !PcOf(k, th).granted && m == PcOf(k, th).mutex
    ensures KernelOk(LockCancel(k, th))
  {
    var r := LockCancel(k, th);
    LeaveLock(k, r, th);
    UnlinkMutexes(k, r, th, m);
  }

  lemma UnlinkMutexes(k: Kernel, r: Kernel, th: Thread, m: nat)
    requires MutexesOk(k) && IsThread(k, th) && PcOf(k, th).LockWait? && !PcOf(k, th).granted && m == PcOf(k, th).mutex
    requires m < |k.mutexes| && OnlyMoved(k, r, th, Code)
    requires r.mutexes == k.mutexes[m := k.mutexes[m].(waiters := Unlinked(k.mutexes[m].waiters, th))]
    ensures MutexesOk(r)
  {
    assert MutexOk(k, m);
    var ws := k.mutexes[m].waiters;
    forall v | v in ws ensures LinkOk(k, m, v) && (!k.mutexes[m].locked ==> IsStoppingTask(k, v.thread)) {
      var j :| 0 <= j < |ws| && ws[j] == v;
    }
    UnlinkedKeeps(ws, th, PcOf(k, th).order);
    var rest := r.mutexes[m].waiters;
    forall j | 0 <= j < |rest|
      ensures LinkOk(r, m, rest[j]) && (!r.mutexes[m].locked ==> IsStoppingTask(r, rest[j].thread)) {
      assert rest[j] in ws;
      MovedPc(k, r, th, Code, rest[j].thread);
    }
    if k.mutexes[m].owner != Free { MovedPc(k, r, th, Code, k.mutexes[m].owner.thread); }
    assert MutexOk(r, m);
    OtherMutexes(k, r, th, Code, m);
  }
}
