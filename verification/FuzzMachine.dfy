/** The fuzzer's phase machine: event accounting that survives restarts, and exactly which checkpoints can be
    resumed. */
module FuzzMachine {

  const WRAP: nat := 0x1_0000_0000

  datatype Phase = Apply | Settle | Check | Escape | Finish

  /** The machine's fields. Counters are 32-bit unsigned. */
  datatype Machine = Machine(
    phase: Phase,
    settleNext: Phase,
    maxSteps: nat,
    escapeCadence: nat,
    stepCount: nat,
    settleRemaining: nat,
    attempted: nat,
    observedDelta: nat,
    noObservedDelta: nat,
    settled: nat,
    timerStopChecks: nat,
    interruptedByRestart: nat,
    finishing: bool,
    applyStarted: bool)

  /** A restart checkpoint: fourteen 32-bit words. */
  datatype State = State(
    phase: nat,
    settleNext: nat,
    maxSteps: nat,
    escapeCadence: nat,
    stepCount: nat,
    settleRemaining: nat,
    attempted: nat,
    observedDelta: nat,
    noObservedDelta: nat,
    settled: nat,
    timerStopChecks: nat,
    finishing: nat,
    interruptedByRestart: nat,
    applyStarted: nat)

  function Inc(x: nat): nat { (x + 1) % WRAP }

  function Code(p: Phase): nat {
    match p
    case Apply => 0
    case Settle => 1
    case Check => 2
    case Escape => 3
    case Finish => 4
  }

  function PhaseOf(code: nat): Phase
    requires code <= 4
  {
    if code == 0 then Apply else if code == 1 then Settle else if code == 2 then Check else if code == 3 then Escape
    else Finish
  }

  function Flag(b: bool): nat { if b then 1 else 0 }

  // ----- the transitions

  function Fresh(maxSteps: nat, escapeCadence: nat): Machine {
    Machine(Apply, Apply, maxSteps, escapeCadence, 0, 0, 0, 0, 0, 0, 0, 0, false, false)
  }

  function SettleThen(m: Machine, next: Phase, cycles: nat): Machine {
    m.(settleNext := next, settleRemaining := cycles, phase := if cycles == 0 then next else Settle)
  }

  function BeginApply(m: Machine): Machine {
    if m.phase != Apply || m.applyStarted then m
    else if m.stepCount >= m.maxSteps || m.attempted >= m.maxSteps then m.(finishing := true, phase := Escape)
    else m.(applyStarted := true)
  }

  function EventApplied(m: Machine, cycles: nat): Machine {
    if m.phase != Apply || !m.applyStarted then m else SettleThen(m.(attempted := Inc(m.attempted)), Check, cycles)
  }

  function CycleComplete(m: Machine): Machine {
    if m.phase != Settle || m.settleRemaining == 0 then m
    else m.(settleRemaining := m.settleRemaining - 1, phase := if m.settleRemaining == 1 then m.settleNext else Settle)
  }

  function CheckComplete(m: Machine, observed: bool, timerStop: bool): Machine {
    if m.phase != Check then m
    else
      m.(applyStarted := false,
         settled := Inc(m.settled),
         observedDelta := if observed then Inc(m.observedDelta) else m.observedDelta,
         noObservedDelta := if observed then m.noObservedDelta else Inc(m.noObservedDelta),
         timerStopChecks := if timerStop then Inc(m.timerStopChecks) else m.timerStopChecks,
         stepCount := Inc(m.stepCount),
         finishing := m.finishing || m.attempted >= m.maxSteps,
         phase := if m.attempted >= m.maxSteps || (m.escapeCadence != 0 && Inc(m.stepCount) % m.escapeCadence == 0)
                  then Escape else Apply)
  }

  function EscapeSettles(m: Machine, cycles: nat): Machine {
    if m.phase == Escape then SettleThen(m, Escape, cycles) else m
  }

  function EscapeChecked(m: Machine, reachedMain: bool): Machine {
    if m.phase == Escape && reachedMain then m.(phase := if m.finishing then Finish else Apply) else m
  }

  predicate Interruptible(m: Machine) {
    m.applyStarted && (m.phase == Apply || m.phase == Settle || m.phase == Check)
  }

  function Interrupt(m: Machine): Machine {
    if !Interruptible(m) then m
    else
      var attempted := if m.phase == Apply then Inc(m.attempted) else m.attempted;
      m.(attempted := attempted, interruptedByRestart := Inc(m.interruptedByRestart), applyStarted := false,
         settleRemaining := 0, settleNext := Apply,
         finishing := attempted >= m.maxSteps, phase := if attempted >= m.maxSteps then Escape else Apply)
  }

  function Checkpoint(m: Machine): State {
    State(Code(m.phase), Code(m.settleNext), m.maxSteps, m.escapeCadence, m.stepCount, m.settleRemaining, m.attempted,
          m.observedDelta, m.noObservedDelta, m.settled, m.timerStopChecks, Flag(m.finishing), m.interruptedByRestart,
          Flag(m.applyStarted))
  }

  /** The three rejection tests of restore. */
  predicate Accepts(s: State) {
    && s.phase <= 4 && s.settleNext <= 4 && s.finishing <= 1 && s.applyStarted <= 1
    && s.settleRemaining == 0 && s.applyStarted == 0
    && s.settled == s.stepCount && s.stepCount <= s.maxSteps && s.attempted <= s.maxSteps
    && s.interruptedByRestart <= s.attempted && s.observedDelta <= s.settled && s.noObservedDelta <= s.settled
    && s.observedDelta + s.noObservedDelta == s.settled && s.timerStopChecks <= s.settled
    && (s.phase == 0 || s.phase == 3)
    && s.settled + s.interruptedByRestart == s.attempted
    && !(s.phase == 0 && s.finishing != 0)
    && !(s.phase == 3 && s.finishing == 0 && s.attempted >= s.maxSteps)
    && !(s.finishing != 0 && (s.phase != 3 || s.attempted != s.maxSteps))
  }

  function Loaded(s: State): Machine
    requires s.phase <= 4 && s.settleNext <= 4
  {
    Machine(PhaseOf(s.phase), PhaseOf(s.settleNext), s.maxSteps, s.escapeCadence, s.stepCount, s.settleRemaining,
            s.attempted, s.observedDelta, s.noObservedDelta, s.settled, s.timerStopChecks, s.interruptedByRestart,
            s.finishing != 0, false)
  }

  function Restore(m: Machine, s: State): Machine {
    if !Accepts(s) then m else Loaded(s)
  }

  // ----- call sequences

  datatype Call =
    | CallBegin
    | CallApplied(cycles: nat)
    | CallCycle
    | CallCheck(observed: bool, timerStop: bool)
    | CallModal(cycles: nat)
    | CallBack(cycles: nat)
    | CallEscape(reachedMain: bool)
    | CallInterrupt
    | CallRestore(state: State)
    | CallReboot(maxSteps: nat, escapeCadence: nat)  // a new process: a fresh machine restores the old one's checkpoint

  function Do(m: Machine, c: Call): Machine {
    match c
    case CallBegin => BeginApply(m)
    case CallApplied(cycles) => EventApplied(m, cycles)
    case CallCycle => CycleComplete(m)
    case CallCheck(observed, timerStop) => CheckComplete(m, observed, timerStop)
    case CallModal(cycles) => EscapeSettles(m, cycles)
    case CallBack(cycles) => EscapeSettles(m, cycles)
    case CallEscape(reachedMain) => EscapeChecked(m, reachedMain)
    case CallInterrupt => Interrupt(m)
    case CallRestore(state) => Restore(m, state)
    case CallReboot(maxSteps, escapeCadence) => Restore(Fresh(maxSteps, escapeCadence), Checkpoint(m))
  }

  function DoAll(m: Machine, calls: seq<Call>): Machine
    decreases |calls|
  {
    if calls == [] then m else DoAll(Do(m, calls[0]), calls[1..])
  }

  /** Arguments are 32-bit words. */
  predicate Words(c: Call) {
    match c
    case CallApplied(cycles) => cycles < WRAP
    case CallModal(cycles) => cycles < WRAP
    case CallBack(cycles) => cycles < WRAP
    case CallRestore(s) =>
      s.maxSteps < WRAP && s.escapeCadence < WRAP
    case CallReboot(maxSteps, escapeCadence) => maxSteps < WRAP && escapeCadence < WRAP
    case _ => true
  }

  /** The event counted as attempted but not yet as settled or interrupted. */
  predicate InFlight(m: Machine) { m.applyStarted && (m.phase == Settle || m.phase == Check) }

  predicate Accounted(m: Machine) {
    && m.settled == m.stepCount == m.observedDelta + m.noObservedDelta && m.timerStopChecks <= m.settled
    && m.attempted == m.settled + m.interruptedByRestart + Flag(InFlight(m))
    && m.attempted <= m.maxSteps < WRAP
  }

  predicate PhaseOk(m: Machine) {
    && (m.phase == Settle <==> m.settleRemaining > 0) && m.settleRemaining < WRAP
    && (m.phase == Settle ==> m.settleNext == (if m.applyStarted then Check else Escape))
    && (m.phase == Check ==> m.applyStarted) && (m.phase == Escape || m.phase == Finish ==> !m.applyStarted)
    && (m.applyStarted || m.phase == Apply ==> !m.finishing)
    && (m.phase == Apply && m.applyStarted ==> m.attempted < m.maxSteps)
    && (m.finishing ==> m.attempted == m.maxSteps) && (m.phase == Finish ==> m.finishing)
    && ((m.phase == Escape || (m.phase == Settle && !m.applyStarted)) && !m.finishing ==> m.attempted < m.maxSteps)
  }

  predicate Ok(m: Machine) { Accounted(m) && PhaseOk(m) }

  lemma CheckKeeps(m: Machine, observed: bool, timerStop: bool)
    requires Ok(m)
    ensures Ok(CheckComplete(m, observed, timerStop))
  {
  }

  lemma RestoreKeeps(m: Machine, s: State)
    requires Ok(m) && s.maxSteps < WRAP
    ensures Ok(Restore(m, s))
  {
    if Accepts(s) { RestoreAccepted(m, s); }
  }

  lemma RestoreAccepted(m: Machine, s: State)
    requires Accepts(s) && s.maxSteps < WRAP
    ensures s.phase <= 4 && s.settleNext <= 4 && Ok(Restore(m, s))
  {
  }

  lemma InterruptKeeps(m: Machine)
    requires Ok(m)
    ensures Ok(Interrupt(m))
  {
  }

  lemma DoKeeps(m: Machine, c: Call)
    requires Ok(m) && Words(c)
    ensures Ok(Do(m, c))
  {
    match c
    case CallCheck(observed, timerStop) => CheckKeeps(m, observed, timerStop);
    case CallInterrupt => InterruptKeeps(m);
    case CallRestore(state) => RestoreKeeps(m, state);
    case CallReboot(maxSteps, escapeCadence) => RestoreKeeps(Fresh(maxSteps, escapeCadence), Checkpoint(m));
    case CallBegin =>
    case CallApplied(_) =>
    case _ =>
  }

  lemma {:induction false} DoAllKeeps(m: Machine, calls: seq<Call>)
    requires Ok(m) && forall i :: 0 <= i < |calls| ==> Words(calls[i])
    ensures Ok(DoAll(m, calls))
    decreases |calls|
  {
    if calls != [] {
      DoKeeps(m, calls[0]);
      DoAllKeeps(Do(m, calls[0]), calls[1..]);
    }
  }

  /** After any sequence of calls, interruptions, restores and restarts: every settled event was observed one way or
      the other; every attempted event was settled, interrupted, or is the one in flight; attempts stay within the
      budget; a settling machine has cycles left to wait; and the finish is reached only with the budget spent. */
  lemma Accounting(maxSteps: nat, escapeCadence: nat, calls: seq<Call>)
    requires maxSteps < WRAP && forall i :: 0 <= i < |calls| ==> Words(calls[i])
    ensures var m := DoAll(Fresh(maxSteps, escapeCadence), calls);
            && m.settled == m.stepCount == m.observedDelta + m.noObservedDelta
            && m.attempted == m.settled + m.interruptedByRestart + Flag(InFlight(m)) && m.attempted <= m.maxSteps
            && (m.phase == Settle ==> m.settleRemaining > 0)
            && (m.phase == Finish ==> m.attempted == m.maxSteps)
  {
    DoAllKeeps(Fresh(maxSteps, escapeCadence), calls);
  }

  /** No counter wraps: in a reachable state every call advances exactly the counters of the event it is, by one. */
  lemma NoOverflow(m: Machine, c: Call)
    requires Ok(m) && Words(c) && !c.CallRestore? && !c.CallReboot?
    ensures var r := Do(m, c);
            && r.attempted ==
               m.attempted + Flag(m.phase == Apply && m.applyStarted && (c.CallApplied? || c.CallInterrupt?))
            && r.interruptedByRestart == m.interruptedByRestart + Flag(c.CallInterrupt? && Interruptible(m))
            && r.settled == m.settled + Flag(c.CallCheck? && m.phase == Check)
            && r.stepCount == m.stepCount + Flag(c.CallCheck? && m.phase == Check)
            && r.observedDelta == m.observedDelta + Flag(c.CallCheck? && m.phase == Check && c.observed)
            && r.noObservedDelta == m.noObservedDelta + Flag(c.CallCheck? && m.phase == Check && !c.observed)
            && r.timerStopChecks == m.timerStopChecks + Flag(c.CallCheck? && m.phase == Check && c.timerStop)
            && r.maxSteps == m.maxSteps && r.escapeCadence == m.escapeCadence
  {
    DoKeeps(m, c);
  }

  /** Finish is absorbing: nothing but restoring a checkpoint from outside changes a finished machine, and restarting
      it yields a machine that has not finished. */
  lemma FinishAbsorbs(m: Machine, c: Call)
    requires Ok(m) && m.phase == Finish && !c.CallRestore?
    ensures if c.CallReboot? then Do(m, c) == Fresh(c.maxSteps, c.escapeCadence) else Do(m, c) == m
  {
  }

  // ----- the phases

  /** Where each call leads: an event begins only while budget is left, else the final escape begins; a settled event
      goes back to the main screen after every `escapeCadence`-th step and after the last attempt of the budget; an
      escape that reached the main screen finishes if the budget is spent; an interrupted event is given up; and nothing
      else changes the phase, except that settling ends. */
  lemma PhaseMoves(m: Machine, c: Call)
    requires Ok(m) && Words(c) && !c.CallRestore? && !c.CallReboot? && !c.CallCycle?
    ensures var r := Do(m, c); var spent := r.attempted == m.maxSteps;
            && (r.phase == Escape && m.phase != Escape ==>
                  || (c.CallBegin? && m.phase == Apply && spent)
                  || (c.CallCheck? && m.phase == Check
                      && (spent || (m.escapeCadence != 0 && r.stepCount % m.escapeCadence == 0)))
                  || (c.CallInterrupt? && m.applyStarted && spent))
            && (c.CallCheck? && m.phase == Check ==>
                  && !r.applyStarted && (r.finishing <==> spent)
                  && if spent || (m.escapeCadence != 0 && r.stepCount % m.escapeCadence == 0) then r.phase == Escape
                     else r.phase == Apply)
            && (c.CallBegin? && m.phase == Apply && !m.applyStarted ==>
                  if spent then r.phase == Escape && r.finishing else r.phase == Apply && r.applyStarted)
            && (c.CallInterrupt? && m.applyStarted ==>
                  !r.applyStarted && if spent then r.phase == Escape && r.finishing else r.phase == Apply)
            && (c.CallEscape? && c.reachedMain && m.phase == Escape ==> r.phase == if spent then Finish else Apply)
            && (r.phase != m.phase ==>
                  || (c.CallBegin? && m.phase == Apply) || (c.CallApplied? && m.phase == Apply && m.applyStarted)
                  || (c.CallCheck? && m.phase == Check) || (c.CallInterrupt? && m.applyStarted)
                  || (m.phase == Escape && (c.CallModal? || c.CallBack? || (c.CallEscape? && c.reachedMain))))
  {
    DoKeeps(m, c);
  }

  function Cycles(n: nat): seq<Call> { seq(n, i => CallCycle) }

  /** An event settles for exactly the cycles it asked for, and is then due for its check. */
  lemma EventSettlesFor(m: Machine, cycles: nat, n: nat)
    requires Ok(m) && m.phase == Apply && m.applyStarted && n <= cycles < WRAP
    ensures DoAll(Do(m, CallApplied(cycles)), Cycles(n)).phase == if n < cycles then Settle else Check
    ensures DoAll(Do(m, CallApplied(cycles)), Cycles(n)).settleRemaining == cycles - n
  {
    SettlesFor(Do(m, CallApplied(cycles)), Check, n);
  }

  /** So does a step of the escape, which then goes on. */
  lemma EscapeSettlesFor(m: Machine, c: Call, n: nat)
    requires Ok(m) && m.phase == Escape && (c.CallModal? || c.CallBack?) && n <= c.cycles < WRAP
    ensures DoAll(Do(m, c), Cycles(n)).phase == if n < c.cycles then Settle else Escape
    ensures DoAll(Do(m, c), Cycles(n)).settleRemaining == c.cycles - n
  {
    SettlesFor(Do(m, c), Escape, n);
  }

  lemma {:induction false} SettlesFor(m: Machine, next: Phase, n: nat)
    requires next != Settle && n <= m.settleRemaining
    requires if m.settleRemaining == 0 then m.phase == next else m.phase == Settle && m.settleNext == next
    ensures DoAll(m, Cycles(n)).phase == if n < m.settleRemaining then Settle else next
    ensures DoAll(m, Cycles(n)).settleRemaining == m.settleRemaining - n
    decreases n
  {
    if n > 0 {
      assert Cycles(n)[1..] == Cycles(n - 1);
      SettlesFor(Do(m, CallCycle), next, n - 1);
    }
  }

  // ----- restarts

  predicate Restartable(m: Machine) { (m.phase == Apply || m.phase == Escape) && !m.applyStarted }

  /** A reachable machine's checkpoint is accepted exactly between events, by any machine, and resumes that very state;
      otherwise the restoring machine is left unchanged. */
  lemma CheckpointRoundTrip(m: Machine, other: Machine)
    requires Ok(m)
    ensures Accepts(Checkpoint(m)) <==> Restartable(m)
    ensures Restore(other, Checkpoint(m)) == if Restartable(m) then m else other
  {
  }

  /** Restore accepts a record exactly when it is the checkpoint of a consistent machine between events. */
  lemma AcceptedAreCheckpoints(s: State)
    requires s.maxSteps < WRAP
    ensures Accepts(s) <==> exists m :: Ok(m) && Restartable(m) && Checkpoint(m) == s
  {
    if Accepts(s) {
      var m := Restore(Fresh(0, 0), s);
      assert Ok(m) && Restartable(m) && Checkpoint(m) == s;
    }
    forall m | Ok(m) && Restartable(m) && Checkpoint(m) == s ensures Accepts(s) {
      CheckpointRoundTrip(m, m);
    }
  }

  /** Interrupting succeeds from every started event and from nowhere else; what it leaves can be checkpointed and
      restored elsewhere without loss, with the attempt counted once and the event neither settled nor observed. */
  lemma InterruptedEventSurvivesRestart(m: Machine, other: Machine)
    requires Ok(m)
    ensures Interruptible(m) <==> m.applyStarted
    ensures m.applyStarted ==>
              var r := Interrupt(m);
              && Restore(other, Checkpoint(r)) == r && Ok(r)
              && r.attempted == m.attempted + Flag(m.phase == Apply)
                 && r.interruptedByRestart == m.interruptedByRestart + 1
              && r.settled == m.settled && r.observedDelta == m.observedDelta && r.noObservedDelta == m.noObservedDelta
              && (r.finishing <==> r.attempted == r.maxSteps)
    ensures !m.applyStarted ==> Interrupt(m) == m
  {
    CheckpointRoundTrip(Interrupt(m), other);
  }

  // ----- the class

  class Fuzzer {
    var phase: Phase
    var settleNext: Phase
    var maxSteps: nat
    var escapeCadence: nat
    var stepCount: nat
    var settleRemaining: nat
    var attempted: nat
    var observedDelta: nat
    var noObservedDelta: nat
    var settled: nat
    var timerStopChecks: nat
    var interruptedByRestart: nat
    var finishing: bool
    var applyStarted: bool

    function View(): Machine
      reads this
    {
      Machine(phase, settleNext, maxSteps, escapeCadence, stepCount, settleRemaining, attempted, observedDelta,
              noObservedDelta, settled, timerStopChecks, interruptedByRestart, finishing, applyStarted)
    }

    ghost predicate Valid()
      reads this
    {
      Ok(View())
    }

    constructor (maxSteps: nat, escapeCadence: nat)
      requires maxSteps < WRAP
      ensures View() == Fresh(maxSteps, escapeCadence) && Valid()
    {
      phase, settleNext := Apply, Apply;
      this.maxSteps, this.escapeCadence := maxSteps, escapeCadence;
      stepCount, settleRemaining, attempted, observedDelta, noObservedDelta := 0, 0, 0, 0, 0;
      settled, timerStopChecks, interruptedByRestart := 0, 0, 0;
      finishing, applyStarted := false, false;
    }

    method TakeCheckpoint() returns (state: State)
      ensures state == Checkpoint(View())
    {
      state := State(Code(phase), Code(settleNext), maxSteps, escapeCadence, stepCount, settleRemaining, attempted,
                     observedDelta, noObservedDelta, settled, timerStopChecks, Flag(finishing), interruptedByRestart,
                     Flag(applyStarted));
    }

    /** The tests of restore, in its order. */
    static method Rejects(state: State) returns (rejected: bool)
      ensures rejected <==> !Accepts(state)
    {
      if state.phase > 4 || state.settleNext > 4 || state.finishing > 1 || state.applyStarted > 1
         || state.settleRemaining != 0 || state.applyStarted != 0 || state.settled != state.stepCount
         || state.stepCount > state.maxSteps || state.attempted > state.maxSteps
         || state.interruptedByRestart > state.attempted || state.observedDelta > state.settled
         || state.noObservedDelta > state.settled || state.observedDelta + state.noObservedDelta != state.settled
         || state.timerStopChecks > state.settled
      {
        return true;
      }
      var restored := PhaseOf(state.phase);
      if restored != Apply && restored != Escape { return true; }
      if state.settled + state.interruptedByRestart != state.attempted { return true; }
      return (restored == Apply && state.finishing != 0)
             || (restored == Escape && state.finishing == 0 && state.attempted >= state.maxSteps)
             || (state.finishing != 0 && (restored != Escape || state.attempted != state.maxSteps));
    }

    /** The field assignments of restore. */
    method Load(state: State)
      requires state.phase <= 4 && state.settleNext <= 4
      modifies this
      ensures View() == Loaded(state)
    {
      hide PhaseOf;
      phase, settleNext := PhaseOf(state.phase), PhaseOf(state.settleNext);
      maxSteps, escapeCadence, stepCount := state.maxSteps, state.escapeCadence, state.stepCount;
      settleRemaining, attempted := state.settleRemaining, state.attempted;
      observedDelta, noObservedDelta, settled := state.observedDelta, state.noObservedDelta, state.settled;
      timerStopChecks, interruptedByRestart := state.timerStopChecks, state.interruptedByRestart;
      finishing, applyStarted := state.finishing != 0, false;
    }

    method RestoreFrom(state: State) returns (ok: bool)
      requires Valid() && state.maxSteps < WRAP
      modifies this
      ensures View() == Restore(old(View()), state) && Valid()
      ensures ok <==> Accepts(state)
    {
      hide Ok, Accepts, Loaded;
      var rejected := Rejects(state);
      if rejected { return false; }
      RestoreAccepted(View(), state);
      Load(state);
      return true;
    }

    method InterruptForRestart() returns (interrupted: bool)
      requires Valid()
      modifies this
      ensures View() == Interrupt(old(View())) && Valid()
      ensures interrupted <==> Interruptible(old(View()))
    {
      DoKeeps(View(), CallInterrupt);
      if !applyStarted || (phase != Apply && phase != Settle && phase != Check) { return false; }
      if phase == Apply { attempted := Inc(attempted); }
      interruptedByRestart := Inc(interruptedByRestart);
      applyStarted := false;
      settleRemaining := 0;
      settleNext := Apply;
      if attempted >= maxSteps {
        finishing := true;
        phase := Escape;
      } else {
        finishing := false;
        phase := Apply;
      }
      return true;
    }

    method Begin() returns (started: bool)
      requires Valid()
      modifies this
      ensures View() == BeginApply(old(View())) && Valid()
      ensures started <==> !old(View()).applyStarted && View().applyStarted
    {
      DoKeeps(View(), CallBegin);
      if phase != Apply || applyStarted { return false; }
      if stepCount >= maxSteps || attempted >= maxSteps {
        finishing := true;
        phase := Escape;
        return false;
      }
      applyStarted := true;
      return true;
    }

    method Settles(next: Phase, cycles: nat)
      modifies this
      ensures View() == SettleThen(old(View()), next, cycles)
    {
      settleNext := next;
      settleRemaining := cycles;
      phase := if cycles == 0 then next else Settle;
    }

    method Applied(cycles: nat)
      requires Valid() && cycles < WRAP
      modifies this
      ensures View() == EventApplied(old(View()), cycles) && Valid()
    {
      DoKeeps(View(), CallApplied(cycles));
      if phase != Apply || !applyStarted { return; }
      attempted := Inc(attempted);
      Settles(Check, cycles);
    }

    method LvglCycleComplete()
      requires Valid()
      modifies this
      ensures View() == CycleComplete(old(View())) && Valid()
    {
      DoKeeps(View(), CallCycle);
      if phase != Settle || settleRemaining == 0 { return; }
      settleRemaining := settleRemaining - 1;
      if settleRemaining == 0 { phase := settleNext; }
    }

    method Checked(observed: bool, timerStop: bool)
      requires Valid()
      modifies this
      ensures View() == CheckComplete(old(View()), observed, timerStop) && Valid()
    {
      hide Ok;
      DoKeeps(View(), CallCheck(observed, timerStop));
      if phase != Check { return; }
      applyStarted := false;
      settled := Inc(settled);
      if observed { observedDelta := Inc(observedDelta); } else { noObservedDelta := Inc(noObservedDelta); }
      if timerStop { timerStopChecks := Inc(timerStopChecks); }
      stepCount := Inc(stepCount);
      if attempted >= maxSteps {
        finishing := true;
        phase := Escape;
      } else if escapeCadence != 0 && stepCount % escapeCadence == 0 {
        phase := Escape;
      } else {
        phase := Apply;
      }
    }

    method EscapeModalRejected(cycles: nat)
      requires Valid() && cycles < WRAP
      modifies this
      ensures View() == EscapeSettles(old(View()), cycles) && Valid()
    {
      DoKeeps(View(), CallModal(cycles));
      if phase == Escape { Settles(Escape, cycles); }
    }

    method EscapeBackIssued(cycles: nat)
      requires Valid() && cycles < WRAP
      modifies this
      ensures View() == EscapeSettles(old(View()), cycles) && Valid()
    {
      DoKeeps(View(), CallBack(cycles));
      if phase == Escape { Settles(Escape, cycles); }
    }

    method EscapeDone(reachedMain: bool)
      requires Valid()
      modifies this
      ensures View() == EscapeChecked(old(View()), reachedMain) && Valid()
    {
      DoKeeps(View(), CallEscape(reachedMain));
      if phase == Escape && reachedMain { phase := if finishing then Finish else Apply; }
    }
  }

  /** One call is one method of the object; a new process is a new object that restores the old one's checkpoint. */
  method Perform(fuzzer: Fuzzer, c: Call) returns (next: Fuzzer)
    requires fuzzer.Valid() && Words(c)
    modifies fuzzer
    ensures next.Valid() && next.View() == Do(old(fuzzer.View()), c)
    ensures next == fuzzer || fresh(next)
  {
    hide Ok, Accepts, Checkpoint, Restore;
    next := fuzzer;
    match c {
      case CallBegin => var _ := fuzzer.Begin();
      case CallApplied(cycles) => fuzzer.Applied(cycles);
      case CallCycle => fuzzer.LvglCycleComplete();
      case CallCheck(observed, timerStop) => fuzzer.Checked(observed, timerStop);
      case CallModal(cycles) => fuzzer.EscapeModalRejected(cycles);
      case CallBack(cycles) => fuzzer.EscapeBackIssued(cycles);
      case CallEscape(reachedMain) => fuzzer.EscapeDone(reachedMain);
      case CallInterrupt => var _ := fuzzer.InterruptForRestart();
      case CallRestore(state) => var _ := fuzzer.RestoreFrom(state);
      case CallReboot(maxSteps, escapeCadence) =>
        CheckpointInWords(fuzzer.View());
        var state := fuzzer.TakeCheckpoint();
        next := new Fuzzer(maxSteps, escapeCadence);
        var _ := next.RestoreFrom(state);
    }
  }

  lemma CheckpointInWords(m: Machine)
    requires Ok(m)
    ensures Checkpoint(m).maxSteps < WRAP
  {
  }

  /** The calls of a whole life, restarts included, lead where the machine's transitions lead. */
  method PerformAll(maxSteps: nat, escapeCadence: nat, calls: seq<Call>) returns (fuzzer: Fuzzer)
    requires maxSteps < WRAP && forall i :: 0 <= i < |calls| ==> Words(calls[i])
    ensures fuzzer.Valid() && fuzzer.View() == DoAll(Fresh(maxSteps, escapeCadence), calls)
  {
    hide Ok, Do, Words;
    fuzzer := new Fuzzer(maxSteps, escapeCadence);
    assert calls[0..] == calls;
    for i := 0 to |calls|
      invariant fuzzer.Valid() && fresh(fuzzer)
      invariant DoAll(fuzzer.View(), calls[i..]) == DoAll(Fresh(maxSteps, escapeCadence), calls)
    {
      assert calls[i..][0] == calls[i] && calls[i..][1..] == calls[i + 1..];
      fuzzer := Perform(fuzzer, calls[i]);
    }
  }
}
