/** The scheduler-visible mutex: one owner, a clean hand-off, nothing stranded by a cancelled lock(), and a bound on
    how often a waiting thread is passed over. */
module KernelLocking {
  import opened Selection
  import opened KernelState
  import opened KernelSteps
  import opened KernelMachine
  import opened KernelInvariant
  import opened KernelPrimitives
  import opened MutexSafety
  import opened KernelSafety
  import opened KernelProgress

  /** `th` was handed the mutex and is on its way out of lock(), or returned from it and has not unlocked. */
  predicate Owns(k: Kernel, m: nat, th: Thread)
    requires m < |k.mutexes|
  {
    IsThread(k, th) && (k.mutexes[m].owner == Held(th) ||
                        (PcOf(k, th).LockWait? && PcOf(k, th).mutex == m && PcOf(k, th).granted))
  }

  predicate Linked(k: Kernel, m: nat, th: Thread)
    requires m < |k.mutexes|
  {
    exists w :: w in k.mutexes[m].waiters && w.thread == th
  }

  lemma LockFacts(k: Kernel, m: nat)
    requires KernelOk(k) && m < |k.mutexes|
    ensures MutexOk(k, m)
    ensures forall w :: w in k.mutexes[m].waiters ==>
              LinkOk(k, m, w) && (!k.mutexes[m].locked ==> IsStoppingTask(k, w.thread))
    ensures forall th :: IsThread(k, th) ==> LockPcOk(k, th, PcOf(k, th))
  {
    assert MutexOk(k, m);
    forall w | w in k.mutexes[m].waiters
      ensures LinkOk(k, m, w) && (!k.mutexes[m].locked ==> IsStoppingTask(k, w.thread))
    {
      var j :| 0 <= j < |k.mutexes[m].waiters| && k.mutexes[m].waiters[j] == w;
    }
    forall th | IsThread(k, th) ensures LockPcOk(k, th, PcOf(k, th)) {
      match th
      case Worker(i) => assert LockPcOk(k, th, k.tasks[i].pc);
      case Host(n) => assert LockPcOk(k, th, k.hosts[n]);
    }
  }

  /** After every run from boot: the lock flag is set exactly when someone owns the mutex, and there is one owner. */
  lemma LockedMeansOneOwner(start: Kernel, run: seq<Step>, m: nat)
    requires Initial(start) && IsRun(start, run) && m < |After(start, run).mutexes|
    ensures var k := After(start, run);
            && (k.mutexes[m].locked <==> exists th :: Owns(k, m, th))
            && (forall th, u :: Owns(k, m, th) && Owns(k, m, u) ==> th == u)
  {
    Reachable(start, run);
    var k := After(start, run);
    LockFacts(k, m);
    if k.mutexes[m].locked {
      assert Owns(k, m, k.mutexes[m].owner.thread);
    }
  }

  /** After every run from boot the waiter list is strictly decreasing in arrival order and names each thread once; a
      linked thread is still inside lock() without a grant; a free mutex has only stopping tasks linked; and a thread
      that waits without a grant is linked. */
  lemma WaiterListSound(start: Kernel, run: seq<Step>, m: nat)
    requires Initial(start) && IsRun(start, run) && m < |After(start, run).mutexes|
    ensures var k := After(start, run); var ws := k.mutexes[m].waiters;
            && (forall i, j :: 0 <= i < j < |ws| ==> ws[i].order > ws[j].order && ws[i].thread != ws[j].thread)
            && (forall th :: IsThread(k, th) ==>
                  (Linked(k, m, th) <==> PcOf(k, th).LockWait? && PcOf(k, th).mutex == m && !PcOf(k, th).granted))
            && (!k.mutexes[m].locked ==> forall th :: Linked(k, m, th) ==> IsStoppingTask(k, th))
  {
    Reachable(start, run);
    var k := After(start, run);
    LockFacts(k, m);
    var ws := k.mutexes[m].waiters;
    assert forall j :: 0 <= j < |ws| ==> ws[j] in ws;
    forall th | IsThread(k, th)
      ensures Linked(k, m, th) <==> PcOf(k, th).LockWait? && PcOf(k, th).mutex == m && !PcOf(k, th).granted
    {
      var pc := PcOf(k, th);
      assert LockPcOk(k, th, pc);
      if pc.LockWait? && pc.mutex == m && !pc.granted { assert Waiter(th, pc.order) in ws; }
    }
  }

  // ----- ownership changes hands

  lemma ReleaseElsewhere(k: Kernel, m: nat, n: nat)
    requires m < |k.mutexes| && n < |k.mutexes| && n != m
    ensures |ReleaseMutex(k, m).mutexes| == |k.mutexes| && ReleaseMutex(k, m).mutexes[n] == k.mutexes[n]
  {
  }

  lemma UnlockMutexes(k: Kernel, th: Thread, m: nat)
    requires KernelOk(k) && Enabled(k, DoUnlock(th, m))
    ensures Calls(ReleaseMutex(k, m), th) && Unlock(k, th, m).mutexes == ReleaseMutex(k, m).mutexes
  {
    UnlockVacates(k, th, m);
    CallerStays(k, th, m);
  }

  /** A mutex that `th` holds stays with `th` under every step but its own unlock; one that was granted to `th` stays
      granted until `th` returns from lock() or cancels it. */
  lemma OwnershipStays(k: Kernel, s: Step, m: nat, th: Thread)
    requires KernelOk(k) && Enabled(k, s) && m < |k.mutexes|
    ensures m < |Next(k, s).mutexes|
    ensures k.mutexes[m].owner == Held(th) && s != DoUnlock(th, m) ==> Next(k, s).mutexes[m].owner == Held(th)
    ensures k.mutexes[m].owner == Granted(th) && s != DoLockReturn(th) && s != DoLockCancel(th) ==>
              Next(k, s).mutexes[m].owner == Granted(th)
  {
    StepOnward(k, s);
    hide KernelOk, Onward, Next, Enabled;
    if ScopeOf(s).mutexes { MutexStepOwner(k, s, m, th); } else { KeptMutexes(k, Next(k, s), ScopeOf(s)); }
  }

  lemma LockerFacts(k: Kernel, th: Thread)
    requires KernelOk(k) && IsThread(k, th)
    ensures LockPcOk(k, th, PcOf(k, th))
  {
  }

  lemma MutexStepOwner(k: Kernel, s: Step, m: nat, th: Thread)
    requires KernelOk(k) && Enabled(k, s) && m < |k.mutexes| && ScopeOf(s).mutexes && Onward(k, Next(k, s), ScopeOf(s))
    ensures m < |Next(k, s).mutexes|
    ensures k.mutexes[m].owner == Held(th) && s != DoUnlock(th, m) ==> Next(k, s).mutexes[m].owner == Held(th)
    ensures k.mutexes[m].owner == Granted(th) && s != DoLockReturn(th) && s != DoLockCancel(th) ==>
              Next(k, s).mutexes[m].owner == Granted(th)
  {
    hide NextRunnable, KernelOk, Lock, Unlock, LockReturn, LockCancel, Onward;
    LockFacts(k, m);
    if s.DoLock? {
      LockMutexes(k, s.th, s.mutex, m);
    } else if s.DoUnlock? {
      if s.mutex != m { OtherUnlock(k, s.th, s.mutex, m); } else { KeptCount(k, s, m); }
    } else if s.DoLockReturn? {
      LockerFacts(k, s.th);
      LockReturnMutexes(k, s.th, m);
    } else if s.DoLockCancel? {
      LockerFacts(k, s.th);
      KeptCount(k, s, m);
      if PcOf(k, s.th).mutex != m || !PcOf(k, s.th).granted { LockCancelMutexes(k, s.th, m); }
    }
  }

  lemma KeptMutexes(k: Kernel, r: Kernel, scope: Scope)
    requires Onward(k, r, scope) && !scope.mutexes
    ensures r.mutexes == k.mutexes
  {
  }

  lemma KeptCount(k: Kernel, s: Step, m: nat)
    requires Enabled(k, s) && Onward(k, Next(k, s), ScopeOf(s)) && m < |k.mutexes|
    ensures m < |Next(k, s).mutexes|
  {
  }

  lemma LockMutexes(k: Kernel, th: Thread, n: nat, m: nat)
    requires IsThread(k, th) && n < |k.mutexes| && m < |k.mutexes|
    ensures |Lock(k, th, n).mutexes| == |k.mutexes|
    ensures Lock(k, th, n).mutexes[m] ==
            if n != m then k.mutexes[m]
            else if !k.mutexes[m].locked then k.mutexes[m].(locked := true, owner := Held(th))
            else k.mutexes[m].(waiters := [Waiter(th, k.nextReady)] + k.mutexes[m].waiters)
  {
  }

  lemma LockReturnMutexes(k: Kernel, th: Thread, m: nat)
    requires Enabled(k, DoLockReturn(th)) && m < |k.mutexes|
    ensures |LockReturn(k, th).mutexes| == |k.mutexes|
    ensures LockReturn(k, th).mutexes[m] ==
            if PcOf(k, th).mutex == m then k.mutexes[m].(owner := Held(th)) else k.mutexes[m]
  {
  }

  lemma LockCancelMutexes(k: Kernel, th: Thread, m: nat)
    requires Enabled(k, DoLockCancel(th)) && m < |k.mutexes| && (PcOf(k, th).mutex != m || !PcOf(k, th).granted)
    ensures |LockCancel(k, th).mutexes| == |k.mutexes|
    ensures LockCancel(k, th).mutexes[m] ==
            if PcOf(k, th).mutex == m then k.mutexes[m].(waiters := Unlinked(k.mutexes[m].waiters, th))
            else k.mutexes[m]
  {
    if PcOf(k, th).granted { ReleaseElsewhere(SetPc(k, th, Code), PcOf(k, th).mutex, m); }
  }

  lemma OtherUnlock(k: Kernel, th: Thread, n: nat, m: nat)
    requires Enabled(k, DoUnlock(th, n)) && m < |k.mutexes| && n != m
    ensures m < |Unlock(k, th, n).mutexes| && Unlock(k, th, n).mutexes[m] == k.mutexes[m]
  {
    ReleaseElsewhere(k, n, m);
  }

  lemma LockStampsDistinct(k: Kernel, m: nat)
    requires m < |k.mutexes| && Decreasing(k.mutexes[m].waiters)
    ensures DistinctOrders(LockEntries(k, m))
  {
    var es := LockEntries(k, m);
    forall i, j | 0 <= i < j < |es| && es[i].In? && es[j].In? ensures es[i].order != es[j].order {
      assert k.mutexes[m].waiters[i].order > k.mutexes[m].waiters[j].order;
    }
  }

  // ----- who is served next

  /** Threads that are not scheduler tasks have the lowest priority. */
  function PriorityOf(k: Kernel, th: Thread): nat {
    match th
    case Worker(i) => if i < |k.tasks| then k.tasks[i].priority else 0
    case Host(_) => 0
  }

  /** `w` is linked and its thread is not stopping: the next hand-off considers it. */
  predicate Contends(k: Kernel, m: nat, w: Waiter) {
    m < |k.mutexes| && w in k.mutexes[m].waiters && IsThread(k, w.thread) && !IsStoppingTask(k, w.thread)
  }

  /** The higher priority is served first, and among equals the one that has waited longer. */
  predicate ServedBefore(k: Kernel, u: Waiter, w: Waiter) {
    || PriorityOf(k, u.thread) > PriorityOf(k, w.thread)
    || (PriorityOf(k, u.thread) == PriorityOf(k, w.thread) && u.order < w.order)
  }

  /** `w` contends and is served before every other waiter that does. */
  ghost predicate ServedNext(k: Kernel, m: nat, w: Waiter) {
    Contends(k, m, w) && forall u :: Contends(k, m, u) && u != w ==> ServedBefore(k, w, u)
  }

  /** The step gives the mutex up: an unlock, or a cancelled lock() that had been granted it. */
  predicate Releases(k: Kernel, s: Step, m: nat) {
    match s
    case DoUnlock(_, n) => n == m
    case DoLockCancel(th) => IsThread(k, th) && PcOf(k, th).LockWait? && PcOf(k, th).mutex == m && PcOf(k, th).granted
    case _ => false
  }

  lemma EntryIs(k: Kernel, w: Waiter)
    requires IsThread(k, w.thread)
    ensures LockEntry(k, w) == if IsStoppingTask(k, w.thread) then Out else In(PriorityOf(k, w.thread), w.order)
  {
  }

  /** An unlock, or a cancelled lock() that had been granted the mutex, hands it to the waiter that is to be served next
      and unlinks only that one; the mutex is free afterwards exactly if nobody contends. */
  lemma ReleaseHandsOver(k: Kernel, s: Step, m: nat, w: Waiter)
    requires KernelOk(k) && Enabled(k, s) && m < |k.mutexes| && Releases(k, s, m)
    ensures m < |Next(k, s).mutexes|
    ensures Contends(k, m, w) ==> (Next(k, s).mutexes[m].owner == Granted(w.thread) <==> ServedNext(k, m, w))
    ensures Next(k, s).mutexes[m].owner == Free <==> forall u :: !Contends(k, m, u)
    ensures Next(k, s).mutexes[m].owner.Granted? <==> exists u :: ServedNext(k, m, u)
    ensures Next(k, s).mutexes[m].locked <==> Next(k, s).mutexes[m].owner != Free
    ensures w in Next(k, s).mutexes[m].waiters <==> w in k.mutexes[m].waiters && !ServedNext(k, m, w)
  {
    hide KernelOk, Enabled, Next, Releases, Contends, ServedBefore;
    var served := ReleaseOutcome(k, s, m);
    match served
    case Some(b) =>
      ServedOnce(k, m, b, w);
      ContenderLinked(k, m, w);
    case None =>
  }

  lemma ContenderLinked(k: Kernel, m: nat, w: Waiter)
    requires m < |k.mutexes|
    ensures Contends(k, m, w) ==> w in k.mutexes[m].waiters
  {
  }

  lemma ServedOnce(k: Kernel, m: nat, b: Waiter, w: Waiter)
    requires KernelOk(k) && ServedNext(k, m, b)
    ensures ServedNext(k, m, w) ==> w == b
    ensures w in Unlinked(k.mutexes[m].waiters, b.thread) <==> w in k.mutexes[m].waiters && w != b
    ensures w in k.mutexes[m].waiters && w.thread == b.thread ==> w == b
  {
    LockFacts(k, m);
    hide KernelOk;
    var ws := k.mutexes[m].waiters;
    forall u | u in ws && u.thread == b.thread ensures u == b { assert LinkOk(k, m, u) && LinkOk(k, m, b); }
    UnlinkedKeeps(ws, b.thread, b.order);
  }

  /** Who is served, and what becomes of the mutex. */
  lemma ReleaseOutcome(k: Kernel, s: Step, m: nat) returns (served: Option<Waiter>)
    requires KernelOk(k) && Enabled(k, s) && m < |k.mutexes| && Releases(k, s, m)
    ensures m < |Next(k, s).mutexes|
    ensures var x := k.mutexes[m];
            match served
            case Some(b) =>
              && ServedNext(k, m, b) && x.locked
              && Next(k, s).mutexes[m] == x.(waiters := Unlinked(x.waiters, b.thread), owner := Granted(b.thread))
            case None => (forall u :: !Contends(k, m, u)) && Next(k, s).mutexes[m] == x.(locked := false, owner := Free)
  {
    hide KernelOk, Enabled, Next, ReleaseMutex, LockEntry, LockEntries, Releases, ServedNext, Contends;
    LockFacts(k, m);
    var from := ReleasedFrom(k, s, m);
    LockStampsDistinct(from, m);
    Released(from, m);
    SelectionIs(k, from, m);
    var chosen := Select(LockEntries(from, m));
    served := if chosen.Some? then Some(k.mutexes[m].waiters[chosen.value]) else None;
  }

  /** The state in which the mutex is given up. */
  lemma ReleasedFrom(k: Kernel, s: Step, m: nat) returns (from: Kernel)
    requires KernelOk(k) && Enabled(k, s) && m < |k.mutexes| && Releases(k, s, m)
    ensures from.mutexes == k.mutexes && k.mutexes[m].locked
    ensures Next(k, s).mutexes == ReleaseMutex(from, m).mutexes
    ensures forall u :: LockEntry(from, u) == LockEntry(k, u)
    ensures forall u :: u in k.mutexes[m].waiters ==> LinkOk(from, m, u)
  {
    LockFacts(k, m);
    if s.DoUnlock? {
      from := k;
      UnlockMutexes(k, s.th, m);
    } else {
      from := SetPc(k, s.th, Code);
      LockerFacts(k, s.th);
      LeavingEntries(k, s.th, m);
    }
    hide KernelOk, ReleaseMutex, Unlock;
  }

  /** The selection loop finds the waiter that is served next. */
  lemma SelectionIs(k: Kernel, from: Kernel, m: nat)
    requires m < |k.mutexes| && from.mutexes == k.mutexes && DistinctOrders(LockEntries(from, m))
    requires forall u :: LockEntry(from, u) == LockEntry(k, u)
    requires forall u :: u in k.mutexes[m].waiters ==> IsThread(k, u.thread)
    ensures var chosen := Select(LockEntries(from, m)); var ws := k.mutexes[m].waiters;
            if chosen.Some? then chosen.value < |ws| && ServedNext(k, m, ws[chosen.value])
            else forall u :: !Contends(k, m, u)
  {
    var ws, es := k.mutexes[m].waiters, LockEntries(from, m);
    var chosen := Select(es);
    assert forall j :: 0 <= j < |ws| ==> ws[j] in ws && es[j] == LockEntry(k, ws[j]);
    hide LockEntry, Select, LockEntries, Contends, ServedBefore, IsThread, IsStoppingTask;
    if chosen.Some? {
      ContendsIff(k, m, chosen.value);
      forall u | Contends(k, m, u) && u != ws[chosen.value] ensures ServedBefore(k, ws[chosen.value], u) {
        var j := ContenderAt(k, m, u);
        assert es[j].In? ==> es[j].order != es[chosen.value].order;
        BeatsIs(k, ws[chosen.value], u);
      }
    } else {
      forall u ensures !Contends(k, m, u) {
        if Contends(k, m, u) { var j := ContenderAt(k, m, u); }
      }
    }
  }

  lemma ContendsIff(k: Kernel, m: nat, j: nat)
    requires m < |k.mutexes| && j < |k.mutexes[m].waiters| && IsThread(k, k.mutexes[m].waiters[j].thread)
    ensures Contends(k, m, k.mutexes[m].waiters[j]) <==> LockEntry(k, k.mutexes[m].waiters[j]).In?
  {
    EntryIs(k, k.mutexes[m].waiters[j]);
  }

  lemma ContenderAt(k: Kernel, m: nat, u: Waiter) returns (j: nat)
    requires Contends(k, m, u)
    ensures m < |k.mutexes| && j < |k.mutexes[m].waiters| && k.mutexes[m].waiters[j] == u
    ensures LockEntry(k, u).In?
  {
    EntryIs(k, u);
    j :| 0 <= j < |k.mutexes[m].waiters| && k.mutexes[m].waiters[j] == u;
  }

  lemma BeatsIs(k: Kernel, b: Waiter, u: Waiter)
    requires IsThread(k, b.thread) && IsThread(k, u.thread) && LockEntry(k, b).In? && LockEntry(k, u).In?
    ensures LockEntry(k, b).order == b.order && LockEntry(k, u).order == u.order
    ensures b.order != u.order && !Beats(LockEntry(k, u), LockEntry(k, b)) ==> ServedBefore(k, b, u)
  {
    EntryIs(k, b);
    EntryIs(k, u);
  }

  /** The thread that is served leaves its wait with the place it has had. */
  lemma ServedReady(k: Kernel, s: Step, m: nat, w: Waiter)
    requires KernelOk(k) && Enabled(k, s) && m < |k.mutexes| && Releases(k, s, m) && Contends(k, m, w)
             && w.thread.Worker?
    requires m < |Next(k, s).mutexes| && Next(k, s).mutexes[m].owner == Granted(w.thread)
    ensures w.thread.id < |Next(k, s).tasks|
    ensures var t := Next(k, s).tasks[w.thread.id]; !t.blocked && t.runnable && t.readyOrder == w.order
  {
    var i := w.thread.id;
    StepKeeps(k, s);
    StepOnward(k, s);
    LockFacts(k, m);
    ContenderBlocked(k, m, w);
    NotActor(k, s, m, w);
    hide Next, Enabled, KernelOk, Onward;
    BystanderAt(k, Next(k, s), ScopeOf(s), i);
    GrantedFacts(Next(k, s), m, w.thread);
    TaskFacts(k, i);
    TaskFacts(Next(k, s), i);
  }

  lemma TaskFacts(k: Kernel, i: nat)
    requires KernelOk(k) && i < |k.tasks|
    ensures WaitOk(k.tasks[i]) && LifeOk(k.tasks[i])
  {
    Facts(k, i);
  }

  lemma ContenderBlocked(k: Kernel, m: nat, w: Waiter)
    requires KernelOk(k) && Contends(k, m, w) && w.thread.Worker?
    ensures w.thread.id < |k.tasks| && k.tasks[w.thread.id].blocked && k.tasks[w.thread.id].waitOrder == w.order
    ensures k.tasks[w.thread.id].pc == LockWait(m, w.order, false)
  {
    LockFacts(k, m);
    Facts(k, w.thread.id);
  }

  lemma NotActor(k: Kernel, s: Step, m: nat, w: Waiter)
    requires Enabled(k, s) && m < |k.mutexes| && Releases(k, s, m) && w.thread.Worker? && w.thread.id < |k.tasks|
    requires k.tasks[w.thread.id].pc == LockWait(m, w.order, false)
    ensures ScopeOf(s).actor != Some(w.thread) && !ScopeOf(s).timer && !ScopeOf(s).stops
  {
  }

  lemma BystanderAt(k: Kernel, r: Kernel, scope: Scope, i: nat)
    requires Onward(k, r, scope) && i < |k.tasks| && Some(Worker(i)) != scope.actor
    ensures i < |r.tasks| && BystandsAt(i, k.tasks[i], r.tasks[i], scope)
    ensures !scope.stops && r.tasks[i].stopping ==> k.tasks[i].stopping
  {
  }

  lemma GrantedFacts(k: Kernel, m: nat, th: Thread)
    requires KernelOk(k) && m < |k.mutexes| && k.mutexes[m].owner == Granted(th)
    ensures IsThread(k, th) && PcOf(k, th).LockWait? && PcOf(k, th).granted
  {
    LockFacts(k, m);
  }

  lemma Released(k: Kernel, m: nat)
    requires m < |k.mutexes| && k.mutexes[m].locked && forall w :: w in k.mutexes[m].waiters ==> LinkOk(k, m, w)
    ensures var chosen := Select(LockEntries(k, m)); var r := ReleaseMutex(k, m); var x := k.mutexes[m];
            && |r.mutexes| == |k.mutexes|
            && r.mutexes[m] == if chosen.Some?
                               then var w := x.waiters[chosen.value];
                                 x.(waiters := Unlinked(x.waiters, w.thread), owner := Granted(w.thread))
                               else x.(locked := false, owner := Free)
  {
    var chosen := Select(LockEntries(k, m));
    if chosen.Some? {
      assert k.mutexes[m].waiters[chosen.value] in k.mutexes[m].waiters;
      assert LinkOk(k, m, k.mutexes[m].waiters[chosen.value]);
    }
  }

  /** A thread that abandons lock() leaves nothing behind: it is in no waiter list and owns no grant, and a mutex it
      had been granted is passed on or, with only stopping tasks waiting, free. */
  lemma CancelStrandsNothing(k: Kernel, th: Thread, m: nat)
    requires KernelOk(k) && Enabled(k, DoLockCancel(th)) && m < |k.mutexes|
    ensures m < |LockCancel(k, th).mutexes|
    ensures !Linked(LockCancel(k, th), m, th) && LockCancel(k, th).mutexes[m].owner != Granted(th)
    ensures k.mutexes[m].owner == Granted(th) ==>
              var x := LockCancel(k, th).mutexes[m];
              x.owner.Granted?
                || (x.owner == Free && forall w :: w in x.waiters ==> IsStoppingTask(LockCancel(k, th), w.thread))
  {
    hide KernelOk, LockCancel, ReleaseMutex;
    var r := LockCancel(k, th);
    LockFacts(k, m);
    LockCancelKeeps(k, th);
    StepOnward(k, DoLockCancel(th));
    CancelLeaves(k, th);
    KeptCount(k, DoLockCancel(th), m);
    LockFacts(r, m);
    if k.mutexes[m].owner == Granted(th) { CancelReleases(k, th, m); }
  }

  lemma CancelReleases(k: Kernel, th: Thread, m: nat)
    requires Enabled(k, DoLockCancel(th)) && PcOf(k, th).granted && PcOf(k, th).mutex == m && k.mutexes[m].locked
    requires forall w :: w in k.mutexes[m].waiters ==> LinkOk(k, m, w)
    ensures m < |LockCancel(k, th).mutexes|
    ensures var x := LockCancel(k, th).mutexes[m]; x.owner.Granted? || (x.owner == Free && !x.locked)
  {
    var left := SetPc(k, th, Code);
    forall w | w in left.mutexes[m].waiters ensures LinkOk(left, m, w) { assert LinkOk(k, m, w); }
    hide ReleaseMutex;
    Released(left, m);
  }

  lemma CancelLeaves(k: Kernel, th: Thread)
    requires KernelOk(k) && Enabled(k, DoLockCancel(th))
    ensures IsThread(LockCancel(k, th), th) && PcOf(LockCancel(k, th), th) == Code
  {
    var m := PcOf(k, th).mutex;
    var left := SetPc(k, th, Code);
    if PcOf(k, th).granted {
      LockFacts(k, m);
      assert LockPcOk(k, th, PcOf(k, th));
      hide KernelOk;
      ReleaseLeaves(k, left, m, th);
    }
  }

  lemma ReleaseLeaves(k: Kernel, left: Kernel, m: nat, th: Thread)
    requires m < |k.mutexes| && left.mutexes == k.mutexes && IsThread(left, th)
    requires forall w :: w in k.mutexes[m].waiters ==> w.thread != th
    ensures IsThread(ReleaseMutex(left, m), th) && PcOf(ReleaseMutex(left, m), th) == PcOf(left, th)
  {
    var chosen := Select(LockEntries(left, m));
    if chosen.Some? && IsThread(left, k.mutexes[m].waiters[chosen.value].thread) {
      assert k.mutexes[m].waiters[chosen.value] in k.mutexes[m].waiters;
      GrantLeaves(left, m, k.mutexes[m].waiters[chosen.value], th);
    }
  }

  lemma GrantLeaves(k: Kernel, m: nat, w: Waiter, th: Thread)
    requires m < |k.mutexes| && IsThread(k, w.thread) && IsThread(k, th) && w.thread != th
    ensures IsThread(Grant(k, m, w), th) && PcOf(Grant(k, m, w), th) == PcOf(k, th)
  {
  }

  // ----- bounded bypass

  /** The threads that are served before `w`. */
  function Ahead(k: Kernel, m: nat, w: Waiter): set<Thread>
    requires m < |k.mutexes|
  {
    set j | 0 <= j < |k.mutexes[m].waiters|
            && Contends(k, m, k.mutexes[m].waiters[j]) && ServedBefore(k, k.mutexes[m].waiters[j], w) ::
      k.mutexes[m].waiters[j].thread
  }

  /** A thread of strictly higher priority than `w` queues up for the mutex. */
  predicate Overtakes(k: Kernel, s: Step, m: nat, w: Waiter) {
    && s.DoLock? && s.mutex == m && m < |k.mutexes| && k.mutexes[m].locked && Contends(k, m, w)
    && !IsStoppingTask(k, s.th) && PriorityOf(k, s.th) > PriorityOf(k, w.thread)
  }

  /** The waiters ahead in `r` were ahead in `k`, apart from `extra`. */
  lemma AheadWithin(k: Kernel, r: Kernel, m: nat, w: Waiter, extra: set<Thread>)
    requires m < |k.mutexes| == |r.mutexes| && PriorityOf(r, w.thread) == PriorityOf(k, w.thread)
    requires forall u :: Contends(r, m, u) ==>
                           || (Contends(k, m, u) && PriorityOf(k, u.thread) == PriorityOf(r, u.thread))
                           || u.thread in extra || !ServedBefore(r, u, w)
    ensures Ahead(r, m, w) <= Ahead(k, m, w) + extra
  {
    forall th | th in Ahead(r, m, w) ensures th in Ahead(k, m, w) + extra {
      var ws := r.mutexes[m].waiters;
      var j :| 0 <= j < |ws| && ws[j].thread == th && Contends(r, m, ws[j]) && ServedBefore(r, ws[j], w);
      if th !in extra {
        assert Contends(k, m, ws[j]) && ServedBefore(k, ws[j], w);
        var i :| 0 <= i < |k.mutexes[m].waiters| && k.mutexes[m].waiters[i] == ws[j];
      }
    }
  }

  /** Priorities never change and a stop is never taken back. */
  lemma PriorityOnward(k: Kernel, r: Kernel, scope: Scope, th: Thread)
    requires Onward(k, r, scope) && IsThread(k, th)
    ensures IsThread(r, th) && PriorityOf(r, th) == PriorityOf(k, th)
            && (IsStoppingTask(k, th) ==> IsStoppingTask(r, th))
  {
  }

  /** What a step does to the waiter list of `m`, when it is not a release of `m`. */
  lemma ListOnward(k: Kernel, s: Step, m: nat, u: Waiter)
    requires KernelOk(k) && Enabled(k, s) && m < |k.mutexes| && !Releases(k, s, m)
    requires m < |Next(k, s).mutexes| && u in Next(k, s).mutexes[m].waiters
    ensures u in k.mutexes[m].waiters
            || (s.DoLock? && s.mutex == m && k.mutexes[m].locked && u == Waiter(s.th, k.nextReady))
  {
    StepOnward(k, s);
    hide KernelOk, Onward, Next, Enabled;
    if ScopeOf(s).mutexes { MutexStepList(k, s, m, u); } else { KeptMutexes(k, Next(k, s), ScopeOf(s)); }
  }

  lemma MutexStepList(k: Kernel, s: Step, m: nat, u: Waiter)
    requires KernelOk(k) && Enabled(k, s) && m < |k.mutexes| && !Releases(k, s, m) && ScopeOf(s).mutexes
    requires m < |Next(k, s).mutexes| && u in Next(k, s).mutexes[m].waiters
    ensures u in k.mutexes[m].waiters
            || (s.DoLock? && s.mutex == m && k.mutexes[m].locked && u == Waiter(s.th, k.nextReady))
  {
    hide KernelOk, Lock, Unlock, LockReturn, LockCancel;
    LockFacts(k, m);
    if s.DoLock? {
      LockMutexes(k, s.th, s.mutex, m);
    } else if s.DoUnlock? {
      OtherUnlock(k, s.th, s.mutex, m);
    } else if s.DoLockReturn? {
      LockReturnMutexes(k, s.th, m);
    } else if s.DoLockCancel? {
      LockCancelMutexes(k, s.th, m);
      if PcOf(k, s.th).mutex == m { UnlinkedKeeps(k.mutexes[m].waiters, s.th, PcOf(k, s.th).order); }
    }
  }

  lemma SameMutexCount(k: Kernel, r: Kernel, scope: Scope)
    requires Onward(k, r, scope)
    ensures |r.mutexes| == |k.mutexes|
  {
  }

  /** A step that does not release the mutex puts at most one thread ahead of `w`, and only one that outranks it. */
  lemma OtherStepBypass(k: Kernel, s: Step, m: nat, w: Waiter)
    requires KernelOk(k) && Enabled(k, s) && Contends(k, m, w) && Contends(Next(k, s), m, w) && !Releases(k, s, m)
    ensures |Ahead(Next(k, s), m, w)| <= |Ahead(k, m, w)| + (if Overtakes(k, s, m, w) then 1 else 0)
  {
    hide KernelOk, Next, Onward;
    var r := Next(k, s);
    StepOnward(k, s);
    LockFacts(k, m);
    SameMutexCount(k, r, ScopeOf(s));
    PriorityOnward(k, r, ScopeOf(s), w.thread);
    var extra: set<Thread> := if Overtakes(k, s, m, w) then {s.th} else {};
    forall u | Contends(r, m, u)
      ensures || (Contends(k, m, u) && PriorityOf(k, u.thread) == PriorityOf(r, u.thread))
              || u.thread in extra || !ServedBefore(r, u, w)
    {
      ListOnward(k, s, m, u);
      PriorityOnward(k, r, ScopeOf(s), u.thread);
    }
    AheadWithin(k, r, m, w, extra);
    SubsetCount(Ahead(r, m, w), Ahead(k, m, w) + extra);
  }

  /** A release that does not serve `w` serves a thread that was ahead of it. */
  lemma ReleaseStepBypass(k: Kernel, s: Step, m: nat, w: Waiter)
    requires KernelOk(k) && Enabled(k, s) && Contends(k, m, w) && Contends(Next(k, s), m, w) && Releases(k, s, m)
    ensures |Ahead(Next(k, s), m, w)| < |Ahead(k, m, w)|
  {
    hide KernelOk, Next, Onward, Enabled;
    var r := Next(k, s);
    StepOnward(k, s);
    LockFacts(k, m);
    SameMutexCount(k, r, ScopeOf(s));
    PriorityOnward(k, r, ScopeOf(s), w.thread);
    var b := ReleaseServes(k, s, m, w);
    forall u | Contends(r, m, u) ensures Contends(k, m, u) && PriorityOf(k, u.thread) == PriorityOf(r, u.thread) {
      PriorityOnward(k, r, ScopeOf(s), u.thread);
    }
    AheadWithin(k, r, m, w, {});
    assert b.thread !in Ahead(r, m, w);
    SubsetCount(Ahead(r, m, w), Ahead(k, m, w) - {b.thread});
  }

  /** The waiter served by a release. */
  lemma ReleaseServes(k: Kernel, s: Step, m: nat, w: Waiter) returns (b: Waiter)
    requires KernelOk(k) && Enabled(k, s) && Contends(k, m, w) && Contends(Next(k, s), m, w) && Releases(k, s, m)
    ensures b.thread in Ahead(k, m, w)
    ensures forall u :: u in Next(k, s).mutexes[m].waiters ==> u in k.mutexes[m].waiters && u.thread != b.thread
  {
    hide KernelOk, Enabled, Next, Releases;
    LockFacts(k, m);
    var served := ReleaseOutcome(k, s, m);
    assert served.Some?;
    b := served.value;
    forall u | u in Next(k, s).mutexes[m].waiters ensures u in k.mutexes[m].waiters && u.thread != b.thread {
      ServedOnce(k, m, b, u);
    }
    assert b != w && ServedBefore(k, b, w);
    var j :| 0 <= j < |k.mutexes[m].waiters| && k.mutexes[m].waiters[j] == b;
  }

  lemma LeavingEntries(k: Kernel, th: Thread, m: nat)
    requires m < |k.mutexes| && IsThread(k, th)
    requires forall u :: u in k.mutexes[m].waiters ==> LinkOk(k, m, u)
    ensures forall u :: LockEntry(SetPc(k, th, Code), u) == LockEntry(k, u)
    ensures PcOf(k, th).LockWait? && PcOf(k, th).granted ==>
              forall u :: u in k.mutexes[m].waiters ==> LinkOk(SetPc(k, th, Code), m, u)
  {
  }

  ghost function ReleasesIn(k: Kernel, run: seq<Step>, m: nat): nat
    requires IsRun(k, run)
    decreases |run|
  {
    if run == [] then 0
    else (if Releases(k, run[0], m) then 1 else 0) + ReleasesIn(Next(k, run[0]), run[1..], m)
  }

  ghost function OvertakesIn(k: Kernel, run: seq<Step>, m: nat, w: Waiter): nat
    requires IsRun(k, run)
    decreases |run|
  {
    if run == [] then 0
    else (if Overtakes(k, run[0], m, w) then 1 else 0) + OvertakesIn(Next(k, run[0]), run[1..], m, w)
  }

  /** `w` waits for the mutex in every state of the run. */
  ghost predicate ContendsThroughout(k: Kernel, run: seq<Step>, m: nat, w: Waiter)
    requires IsRun(k, run)
    decreases |run|
  {
    Contends(k, m, w) && (run != [] ==> ContendsThroughout(Next(k, run[0]), run[1..], m, w))
  }

  /** Bounded bypass: while a thread waits, the mutex is released to others at most once for each waiter ahead of it
      at the start and once for each thread of strictly higher priority that arrives meanwhile. */
  lemma {:induction false} BoundedBypass(k: Kernel, run: seq<Step>, m: nat, w: Waiter)
    requires KernelOk(k) && IsRun(k, run) && ContendsThroughout(k, run, m, w)
    ensures m < |k.mutexes| && m < |After(k, run).mutexes|
    ensures ReleasesIn(k, run, m) + |Ahead(After(k, run), m, w)| <= |Ahead(k, m, w)| + OvertakesIn(k, run, m, w)
    decreases |run|
  {
    hide KernelOk, Contends, Ahead, Overtakes, Releases, IsThread;
    MutexExists(k, m, w);
    if run != [] {
      var s := run[0];
      StepKeeps(k, s);
      BoundedBypass(Next(k, s), run[1..], m, w);
      if Releases(k, s, m) { ReleaseStepBypass(k, s, m, w); } else { OtherStepBypass(k, s, m, w); }
    }
  }

  lemma MutexExists(k: Kernel, m: nat, w: Waiter)
    requires Contends(k, m, w)
    ensures m < |k.mutexes|
  {
  }
}
