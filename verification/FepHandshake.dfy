/** The two-thread front end: one caller (`eNB_fep_full_2thread`, called once per subframe) and one worker
    (`fep_thread`) share a mutex, a condition variable and an instance counter.

    A state holds the program counters of both threads; one step is one access to shared state. `Waiting`
    is the wait set of the condition variable; a signal or a spurious wake-up moves a thread to `Woken`,
    from where it still has to take the mutex again. */
module FepHandshake {
  import opened FepTrace

  datatype Holder = Free | ByCaller | ByWorker

  /** The caller: `Idle` is outside the call, `Exited` is the "FEP thread busy" exit. */
  datatype CallerPc =
    | Idle
    | Lock | Check | Inc | Signal | Unlock
    | Slot(k: nat)
    | BusyLock | BusyTest | Waiting | Woken | BusyUnlock
    | Exited

  datatype WorkerPc =
    | WLock | WTest | WWaiting | WWoken | WUnlock
    | WSlot(j: nat)
    | WRelLock | WDec | WRelUnlock | WSignal

  /** `sf` is the subframe being received; `trace` and `calls` record the operations done and the subframes called for. */
  datatype State = State(
    holder: Holder, cnt: int, caller: CallerPc, worker: WorkerPc, sf: nat, trace: seq<Op>, calls: seq<nat>)

  const INITIAL := State(Free, -1, Idle, WLock, 0, [], [])

  /** A scheduling choice: begin a call for some subframe, run a thread for one step, or wake one for no reason. */
  datatype Choice = Begin(sf: nat) | RunCaller | RunWorker | SpuriousCaller | SpuriousWorker

  predicate Real(a: Choice) {
    a.RunCaller? || a.RunWorker?
  }

  predicate CallerCan(s: State) {
    match s.caller
    case Idle | Waiting | Exited => false
    case Lock | BusyLock | Woken => s.holder.Free?
    case _ => true
  }

  predicate WorkerCan(s: State) {
    match s.worker
    case WWaiting => false
    case WLock | WWoken | WRelLock => s.holder.Free?
    case _ => true
  }

  predicate Enabled(s: State, a: Choice) {
    match a
    case Begin(sf) => s.caller.Idle?
    case RunCaller => CallerCan(s)
    case RunWorker => WorkerCan(s)
    case SpuriousCaller => s.caller.Waiting?
    case SpuriousWorker => s.worker.WWaiting?
  }

  /** One step of the caller, `n` symbols per slot. It processes slot 1 of the subframe. */
  function CallerStep(n: nat, s: State): State
    requires CallerCan(s)
  {
    match s.caller
    case Lock => s.(holder := ByCaller, caller := Check)
    case Check => s.(caller := if s.cnt == 0 then Exited else Inc)
    case Inc => s.(cnt := s.cnt + 1, caller := Signal)
    case Signal => s.(worker := if s.worker.WWaiting? then WWoken else s.worker, caller := Unlock)
    case Unlock => s.(holder := Free, caller := Slot(0))
    case Slot(k) =>
      s.(trace := s.trace + [SlotOp(2 * s.sf + 1, k)], caller := if k < n then Slot(k + 1) else BusyLock)
    case BusyLock => s.(holder := ByCaller, caller := BusyTest)
    case BusyTest => if s.cnt == 0 then s.(holder := Free, caller := Waiting) else s.(caller := BusyUnlock)
    case Woken => s.(holder := ByCaller, caller := BusyTest)
    case BusyUnlock => s.(holder := Free, caller := Idle)
  }

  /** One step of the worker. It processes slot 0 of the subframe. */
  function WorkerStep(n: nat, s: State): State
    requires WorkerCan(s)
  {
    match s.worker
    case WLock => s.(holder := ByWorker, worker := WTest)
    case WTest => if s.cnt < 0 then s.(holder := Free, worker := WWaiting) else s.(worker := WUnlock)
    case WWoken => s.(holder := ByWorker, worker := WTest)
    case WUnlock => s.(holder := Free, worker := WSlot(0))
    case WSlot(j) =>
      s.(trace := s.trace + [SlotOp(2 * s.sf, j)], worker := if j < n then WSlot(j + 1) else WRelLock)
    case WRelLock => s.(holder := ByWorker, worker := WDec)
    case WDec => s.(cnt := s.cnt - 1, worker := WRelUnlock)
    case WRelUnlock => s.(holder := Free, worker := WSignal)
    case WSignal => s.(caller := if s.caller.Waiting? then Woken else s.caller, worker := WLock)
  }

  function Step(n: nat, s: State, a: Choice): State
    requires Enabled(s, a)
  {
    match a
    case Begin(sf) => s.(caller := Lock, sf := sf, calls := s.calls + [sf])
    case RunCaller => CallerStep(n, s)
    case RunWorker => WorkerStep(n, s)
    case SpuriousCaller => s.(caller := Woken)
    case SpuriousWorker => s.(worker := WWoken)
  }

  /** A schedule is feasible when every choice is enabled where it is made. */
  ghost predicate Feasible(n: nat, s: State, sched: seq<Choice>)
    decreases |sched|
  {
    sched == [] || (Enabled(s, sched[0]) && Feasible(n, Step(n, s, sched[0]), sched[1..]))
  }

  ghost function Run(n: nat, s: State, sched: seq<Choice>): State
    requires Feasible(n, s, sched)
    decreases |sched|
  {
    if sched == [] then s else Run(n, Step(n, s, sched[0]), sched[1..])
  }

  // ----- The invariant

  ghost predicate CallerHolds(s: State) {
    s.caller.Check? || s.caller.Inc? || s.caller.Signal? || s.caller.Unlock? || s.caller.BusyTest? || s.caller.BusyUnlock?
  }

  ghost predicate WorkerHolds(s: State) {
    s.worker.WTest? || s.worker.WUnlock? || s.worker.WDec? || s.worker.WRelUnlock?
  }

  /** The call has begun but its job is not posted yet. */
  ghost predicate Unposted(s: State) {
    s.caller.Lock? || s.caller.Check? || s.caller.Inc?
  }

  ghost predicate WorkerBusy(s: State) {
    s.worker.WUnlock? || s.worker.WSlot? || s.worker.WRelLock? || s.worker.WDec?
  }

  /** Mutual exclusion, and the counter as "a job is posted and not finished". */
  ghost predicate Control(n: nat, s: State) {
    && (s.holder.ByCaller? <==> CallerHolds(s))
    && (s.holder.ByWorker? <==> WorkerHolds(s))
    && (s.cnt == -1 || s.cnt == 0)
    && !s.caller.Exited?
    && (s.cnt == 0 ==> !s.caller.Idle? && !Unposted(s) && !s.caller.BusyUnlock? && !s.worker.WRelUnlock?)
    && (WorkerBusy(s) || s.caller.Signal? || s.caller.Unlock? ==> s.cnt == 0)
    && (s.caller.Slot? ==> s.caller.k <= n)
    && (s.worker.WSlot? ==> s.worker.j <= n)
    // a waiter whose condition holds has a signal on its way
    && (s.worker.WWaiting? && s.cnt == 0 ==> s.caller.Signal?)
    && (s.caller.Waiting? && s.cnt == -1 ==> s.worker.WRelUnlock? || s.worker.WSignal?)
  }

  /** How many operations of slot 1 and of slot 0 the current call has done. */
  ghost function CallerDone(n: nat, s: State): nat {
    match s.caller
    case Idle | Lock | Check | Inc | Signal | Unlock => 0
    case Slot(k) => k
    case _ => n + 1
  }

  ghost function WorkerDone(n: nat, s: State): nat {
    if s.cnt == 0 then
      match s.worker
      case WSlot(j) => j
      case WRelLock | WDec => n + 1
      case _ => 0
    else if Unposted(s) then 0
    else n + 1
  }

  /** The calls that have returned. */
  ghost function Returned(s: State): seq<nat> {
    if s.caller.Idle? || s.calls == [] then s.calls else s.calls[..|s.calls| - 1]
  }

  /** What the current call has done to `slot`. */
  ghost function Current(n: nat, s: State, slot: nat): seq<Op>
    requires Control(n, s)
  {
    if s.caller.Idle? then []
    else if slot == 2 * s.sf then SlotOps(slot, n)[..WorkerDone(n, s)]
    else if slot == 2 * s.sf + 1 then SlotOps(slot, n)[..CallerDone(n, s)]
    else []
  }

  /** What happened to `slot` so far is what the returned calls do to it sequentially, and the current progress. */
  ghost predicate DataAt(n: nat, s: State, slot: nat)
    requires Control(n, s)
  {
    Project(s.trace, slot) == Project(SequentialRun(Returned(s), n), slot) + Current(n, s, slot)
  }

  ghost predicate Data(n: nat, s: State)
    requires Control(n, s)
  {
    && (!s.caller.Idle? ==> s.calls != [] && s.sf == s.calls[|s.calls| - 1])
    && forall slot: nat :: DataAt(n, s, slot)
  }

  ghost predicate Inv(n: nat, s: State) {
    Control(n, s) && Data(n, s)
  }

  lemma StepKeepsControl(n: nat, s: State, a: Choice)
    requires Control(n, s) && Enabled(s, a)
    ensures Control(n, Step(n, s, a))
  {
  }

  /** Returning completes the sequential run by one call. */
  lemma ReturnCompletesCall(n: nat, s: State, slot: nat)
    requires Control(n, s) && Data(n, s) && s.caller.BusyUnlock?
    ensures Project(s.trace, slot) == Project(SequentialRun(s.calls, n), slot)
  {
    assert DataAt(n, s, slot);
    FinishedProgress(n, s, slot);
    ProjectConcat(SequentialRun(Returned(s), n), SequentialOps(s.sf, n), slot);
  }

  /** A call about to return has done all of both its slots. */
  lemma FinishedProgress(n: nat, s: State, slot: nat)
    requires Control(n, s) && s.caller.BusyUnlock?
    ensures Current(n, s, slot) == Project(SequentialOps(s.sf, n), slot)
  {
    ProjectSequential(s.sf, n, slot);
    assert SlotOps(slot, n)[..n + 1] == SlotOps(slot, n);
  }

  /** An operation extends the progress of its own slot and of no other. */
  lemma OpExtendsSlot(n: nat, s: State, s': State, op: Op, slot: nat)
    requires Control(n, s) && DataAt(n, s, slot) && Control(n, s')
    requires s'.trace == s.trace + [op] && Returned(s') == Returned(s)
    requires Current(n, s', slot) == Current(n, s, slot) + (if op.slot == slot then [op] else [])
    ensures DataAt(n, s', slot)
  {
    ProjectSnoc(s.trace, op, slot);
  }

  lemma SlotOpsNext(slot: nat, n: nat, k: nat)
    requires k <= n
    ensures SlotOps(slot, n)[..k + 1] == SlotOps(slot, n)[..k] + [SlotOp(slot, k)]
  {
  }

  /** The caller's operation moves the progress of the odd slot. */
  lemma CallerSlotCurrent(n: nat, s: State, slot: nat)
    requires Control(n, s) && s.caller.Slot? && Control(n, CallerStep(n, s))
    ensures var op := SlotOp(2 * s.sf + 1, s.caller.k);
      Current(n, CallerStep(n, s), slot) == Current(n, s, slot) + (if op.slot == slot then [op] else [])
  {
    SlotOpsNext(2 * s.sf + 1, n, s.caller.k);
  }

  lemma CallerSlotAt(n: nat, s: State, slot: nat)
    requires Control(n, s) && s.caller.Slot? && DataAt(n, s, slot)
    ensures Control(n, CallerStep(n, s)) && DataAt(n, CallerStep(n, s), slot)
  {
    StepKeepsControl(n, s, RunCaller);
    CallerSlotCurrent(n, s, slot);
    OpExtendsSlot(n, s, CallerStep(n, s), SlotOp(2 * s.sf + 1, s.caller.k), slot);
  }

  /** The worker's operation moves the progress of the even slot. */
  lemma WorkerSlotCurrent(n: nat, s: State, slot: nat)
    requires Control(n, s) && s.worker.WSlot? && Control(n, WorkerStep(n, s))
    ensures var op := SlotOp(2 * s.sf, s.worker.j);
      Current(n, WorkerStep(n, s), slot) == Current(n, s, slot) + (if op.slot == slot then [op] else [])
  {
    SlotOpsNext(2 * s.sf, n, s.worker.j);
  }

  lemma WorkerSlotAt(n: nat, s: State, slot: nat)
    requires Control(n, s) && s.worker.WSlot? && DataAt(n, s, slot)
    ensures Control(n, WorkerStep(n, s)) && DataAt(n, WorkerStep(n, s), slot)
  {
    StepKeepsControl(n, s, RunWorker);
    WorkerSlotCurrent(n, s, slot);
    OpExtendsSlot(n, s, WorkerStep(n, s), SlotOp(2 * s.sf, s.worker.j), slot);
  }

  lemma CallerSlotKeepsData(n: nat, s: State)
    requires Control(n, s) && Data(n, s) && s.caller.Slot?
    ensures Control(n, CallerStep(n, s)) && Data(n, CallerStep(n, s))
  {
    StepKeepsControl(n, s, RunCaller);
    forall slot: nat
      ensures DataAt(n, CallerStep(n, s), slot)
    {
      CallerSlotAt(n, s, slot);
    }
  }

  lemma WorkerSlotKeepsData(n: nat, s: State)
    requires Control(n, s) && Data(n, s) && s.worker.WSlot?
    ensures Control(n, WorkerStep(n, s)) && Data(n, WorkerStep(n, s))
  {
    StepKeepsControl(n, s, RunWorker);
    forall slot: nat
      ensures DataAt(n, WorkerStep(n, s), slot)
    {
      WorkerSlotAt(n, s, slot);
    }
  }

  lemma BeginKeepsData(n: nat, s: State, sf: nat)
    requires Control(n, s) && Data(n, s) && s.caller.Idle?
    ensures Data(n, Step(n, s, Begin(sf)))
  {
    var s' := Step(n, s, Begin(sf));
    assert Returned(s') == s.calls;
    forall slot: nat
      ensures DataAt(n, s', slot)
    {
      assert DataAt(n, s, slot);
      assert SlotOps(slot, n)[..0] == [];
      assert Current(n, s', slot) == Current(n, s, slot) == [];
    }
  }

  /** A step that touches neither the trace nor the list of calls moves no progress mark. */
  lemma QuietStepKeepsMarks(n: nat, s: State, a: Choice)
    requires Control(n, s) && Enabled(s, a) && (!s.caller.Idle? ==> s.calls != [])
    requires !a.Begin? && !(a.RunCaller? && (s.caller.Slot? || s.caller.BusyUnlock?)) && !(a.RunWorker? && s.worker.WSlot?)
    ensures var s' := Step(n, s, a);
      && s'.trace == s.trace && s'.sf == s.sf && s'.calls == s.calls && (s'.caller.Idle? <==> s.caller.Idle?)
      && CallerDone(n, s') == CallerDone(n, s) && WorkerDone(n, s') == WorkerDone(n, s)
  {
  }

  lemma QuietStepKeepsData(n: nat, s: State, a: Choice)
    requires Control(n, s) && Data(n, s) && Enabled(s, a)
    requires !a.Begin? && !(a.RunCaller? && (s.caller.Slot? || s.caller.BusyUnlock?)) && !(a.RunWorker? && s.worker.WSlot?)
    ensures Control(n, Step(n, s, a)) && Data(n, Step(n, s, a))
  {
    StepKeepsControl(n, s, a);
    QuietStepKeepsMarks(n, s, a);
    SameMarksSameData(n, s, Step(n, s, a));
  }

  lemma SameMarksSameData(n: nat, s: State, s': State)
    requires Control(n, s) && Control(n, s') && Data(n, s)
    requires s'.trace == s.trace && s'.sf == s.sf && s'.calls == s.calls && (s'.caller.Idle? <==> s.caller.Idle?)
    requires CallerDone(n, s') == CallerDone(n, s) && WorkerDone(n, s') == WorkerDone(n, s)
    ensures Data(n, s')
  {
    forall slot: nat
      ensures DataAt(n, s', slot)
    {
      assert DataAt(n, s, slot);
    }
  }

  lemma StepKeepsInv(n: nat, s: State, a: Choice)
    requires Inv(n, s) && Enabled(s, a)
    ensures Inv(n, Step(n, s, a))
  {
    StepKeepsControl(n, s, a);
    if a.Begin? {
      BeginKeepsData(n, s, a.sf);
    } else if a.RunCaller? && s.caller.Slot? {
      CallerSlotKeepsData(n, s);
    } else if a.RunWorker? && s.worker.WSlot? {
      WorkerSlotKeepsData(n, s);
    } else if a.RunCaller? && s.caller.BusyUnlock? {
      forall slot: nat
        ensures Project(s.trace, slot) == Project(SequentialRun(s.calls, n), slot)
      {
        ReturnCompletesCall(n, s, slot);
      }
    } else {
      QuietStepKeepsData(n, s, a);
    }
  }

  lemma InitialInv(n: nat)
    ensures Inv(n, INITIAL)
  {
  }

  lemma {:induction false} RunKeepsInv(n: nat, s: State, sched: seq<Choice>)
    requires Inv(n, s) && Feasible(n, s, sched)
    ensures Inv(n, Run(n, s, sched))
    decreases |sched|
  {
    if sched != [] {
      StepKeepsInv(n, s, sched[0]);
      RunKeepsInv(n, Step(n, s, sched[0]), sched[1..]);
    }
  }

  // ----- What holds in every interleaving

  /** Safety of the handshake in every state that any schedule reaches, and absence of deadlock: outside a
      call a new one can begin, inside a call some thread can run without a spurious wake-up. */
  lemma HandshakeSafe(n: nat, sched: seq<Choice>)
    requires Feasible(n, INITIAL, sched)
    ensures var s := Run(n, INITIAL, sched);
      && (s.cnt == -1 || s.cnt == 0)
      && !s.caller.Exited?
      && !(s.caller.Waiting? && s.worker.WWaiting?)
      && !(CallerHolds(s) && WorkerHolds(s))
      && (if s.caller.Idle? then forall sf :: Enabled(s, Begin(sf)) else CallerCan(s) || WorkerCan(s))
  {
    InitialInv(n);
    RunKeepsInv(n, INITIAL, sched);
  }

  lemma IdleTraceIsSequential(n: nat, s: State, slot: nat)
    requires Inv(n, s) && s.caller.Idle?
    ensures Project(s.trace, slot) == Project(SequentialRun(s.calls, n), slot)
  {
    assert DataAt(n, s, slot);
  }

  /** Whenever no call is in progress, the buffers are those of the sequential front end called for the
      same subframes in the same order: each slot was processed exactly once per call. */
  lemma TwoThreadsRefineSequential<B>(n: nat, sched: seq<Choice>, f: (Op, B) -> B, bufs: seq<B>)
    requires Feasible(n, INITIAL, sched)
    requires forall a :: a in sched && a.Begin? ==> 2 * a.sf + 1 < |bufs|
    requires Run(n, INITIAL, sched).caller.Idle?
    ensures var s := Run(n, INITIAL, sched);
      && InRange(s.trace, |bufs|) && InRange(SequentialRun(s.calls, n), |bufs|)
      && Exec(f, bufs, s.trace) == Exec(f, bufs, SequentialRun(s.calls, n))
      && s.calls == Begun(sched)
  {
    InitialInv(n);
    RunKeepsInv(n, INITIAL, sched);
    var s := Run(n, INITIAL, sched);
    RunRecordsCalls(n, INITIAL, sched);
    BegunInRange(sched, |bufs|);
    assert s.calls == Begun(sched);
    forall slot: nat
      ensures Project(s.trace, slot) == Project(SequentialRun(s.calls, n), slot)
    {
      IdleTraceIsSequential(n, s, slot);
    }
    SequentialRunInRange(s.calls, n, |bufs|);
    SlotwiseEqualTracesCommute(f, bufs, s.trace, SequentialRun(s.calls, n));
  }

  /** The subframes for which a schedule begins calls. */
  function Begun(sched: seq<Choice>): seq<nat> {
    if sched == [] then [] else (if sched[0].Begin? then [sched[0].sf] else []) + Begun(sched[1..])
  }

  lemma {:induction false} BegunInRange(sched: seq<Choice>, bound: nat)
    requires forall a :: a in sched && a.Begin? ==> 2 * a.sf + 1 < bound
    ensures forall i :: 0 <= i < |Begun(sched)| ==> 2 * Begun(sched)[i] + 1 < bound
  {
    if sched != [] {
      assert sched[0] in sched;
      BegunInRange(sched[1..], bound);
    }
  }

  lemma {:induction false} RunRecordsCalls(n: nat, s: State, sched: seq<Choice>)
    requires Feasible(n, s, sched)
    ensures Run(n, s, sched).calls == s.calls + Begun(sched)
    decreases |sched|
  {
    if sched != [] {
      RunRecordsCalls(n, Step(n, s, sched[0]), sched[1..]);
    }
  }

  // ----- Every call returns

  /** Steps the worker still takes before it sleeps with nothing to do. */
  ghost function WorkerRank(n: nat, s: State): nat {
    var ahead := n + 11;
    match s.worker
    case WUnlock => n + 8
    case WSlot(j) => if j <= n then 6 + (n + 1 - j) else 6
    case WRelLock => 6
    case WDec => 5
    case WWaiting => if Unposted(s) || s.cnt == 0 then ahead else 0
    case WTest => if Unposted(s) then ahead + 1 else if s.cnt == 0 then n + 9 else 1
    case WLock | WWoken => if Unposted(s) then ahead + 2 else if s.cnt == 0 then n + 10 else 2
    case WSignal => if Unposted(s) then ahead + 3 else if s.cnt == 0 then n + 11 else 3
    case WRelUnlock => if Unposted(s) then ahead + 4 else if s.cnt == 0 then n + 12 else 4
  }

  /** Steps the caller still takes before it returns or waits. */
  ghost function CallerRank(n: nat, s: State): nat {
    match s.caller
    case Lock => n + 9
    case Check => n + 8
    case Inc => n + 7
    case Signal => n + 6
    case Unlock => n + 5
    case Slot(k) => if k <= n then 3 + (n + 1 - k) else 3
    case BusyLock | Woken => 3
    case BusyTest => 2
    case BusyUnlock => 1
    case _ => 0
  }

  ghost function Rank(n: nat, s: State): nat {
    4 * WorkerRank(n, s) + CallerRank(n, s)
  }

  lemma RealStepDescends(n: nat, s: State, a: Choice)
    requires Control(n, s) && Enabled(s, a) && Real(a) && !s.caller.Idle?
    ensures Rank(n, Step(n, s, a)) < Rank(n, s)
  {
    var s' := Step(n, s, a);
    if a.RunCaller? {
      assert CallerRank(n, s') < CallerRank(n, s);
      assert WorkerRank(n, s') <= WorkerRank(n, s);
    } else {
      assert WorkerRank(n, s') < WorkerRank(n, s);
      assert CallerRank(n, s') <= CallerRank(n, s) + 3;
    }
  }

  lemma SpuriousStepClimbs(n: nat, s: State, a: Choice)
    requires Control(n, s) && Enabled(s, a) && !Real(a) && !a.Begin?
    ensures Rank(n, Step(n, s, a)) <= Rank(n, s) + 8
  {
  }

  /** The thread steps of a schedule, and its spurious wake-ups. */
  function Reals(sched: seq<Choice>): nat {
    if sched == [] then 0 else (if Real(sched[0]) then 1 else 0) + Reals(sched[1..])
  }

  function Wakeups(sched: seq<Choice>): nat {
    if sched == [] then 0 else (if Real(sched[0]) || sched[0].Begin? then 0 else 1) + Wakeups(sched[1..])
  }

  /** The schedule stays inside one call: no state along it is `Idle`, except possibly the last. */
  ghost predicate InsideCall(n: nat, s: State, sched: seq<Choice>)
    requires Feasible(n, s, sched)
    decreases |sched|
  {
    sched == [] || (!s.caller.Idle? && InsideCall(n, Step(n, s, sched[0]), sched[1..]))
  }

  lemma {:induction false} RankPaysForSteps(n: nat, s: State, sched: seq<Choice>)
    requires Control(n, s) && Feasible(n, s, sched) && InsideCall(n, s, sched)
    ensures Rank(n, Run(n, s, sched)) + Reals(sched) <= Rank(n, s) + 8 * Wakeups(sched)
    decreases |sched|
  {
    if sched != [] {
      StepKeepsControl(n, s, sched[0]);
      if Real(sched[0]) {
        RealStepDescends(n, s, sched[0]);
      } else {
        SpuriousStepClimbs(n, s, sched[0]);
      }
      RankPaysForSteps(n, Step(n, s, sched[0]), sched[1..]);
    }
  }

  /** However the threads are interleaved, a call takes at most `5n + 69` thread steps, and eight more for
      each spurious wake-up. With `HandshakeSafe` (some thread can always run) every call returns. */
  lemma CallReturnsWithinBound(n: nat, before: seq<Choice>, sf: nat, during: seq<Choice>)
    requires Feasible(n, INITIAL, before) && Run(n, INITIAL, before).caller.Idle?
    requires var s := Step(n, Run(n, INITIAL, before), Begin(sf));
      Feasible(n, s, during) && InsideCall(n, s, during)
    ensures Reals(during) <= 5 * n + 69 + 8 * Wakeups(during)
  {
    InitialInv(n);
    RunKeepsInv(n, INITIAL, before);
    var idle := Run(n, INITIAL, before);
    StepKeepsControl(n, idle, Begin(sf));
    RankPaysForSteps(n, Step(n, idle, Begin(sf)), during);
  }
}
