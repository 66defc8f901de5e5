/** Wave execution refines serial execution: with a deterministic driver, every
schedule of a frontier, at every wave width, does what running its stages one by
one in stage-id order does. */
module Refinement {
  import opened Common
  import opened Budget
  import opened Workflow
  import opened Serial
  import opened Runs
  import opened Waves
  import opened Schedules

  /** What the driver still has to charge to kind `k` for this stage. */
  function Owed(driver: Driver, snapshot: RunState, s: Slot, k: BudgetKind): nat {
    SatSub(driver.Reply(s.task, snapshot).cost.At(k), s.spent.At(k))
  }

  /** The action is one that this driver would take: a stage charges its cost piece by
      piece, then returns what the driver replies or fails as it does; it also fails
      when a charge that it still owes does not fit. */
  ghost predicate Obeys(driver: Driver, width: nat, m: Machine, action: Action)
    requires Enabled(width, m, action)
  {
    match action
    case Charge(i, k, n) => 0 < n <= Owed(driver, m.state, m.phase.slots[i], k)
    case Return(i, outcome) =>
      var reply := driver.Reply(m.phase.slots[i].task, m.state);
      reply.result == Ok(outcome) && reply.cost == m.phase.slots[i].spent
    case Fail(i, message) =>
      var reply := driver.Reply(m.phase.slots[i].task, m.state);
      || (reply.result == Err(message) && reply.cost == m.phase.slots[i].spent)
      || (exists k: BudgetKind :: Owed(driver, m.state, m.phase.slots[i], k) > m.ledger.Remaining(k))
    case Seal(ok) => ok == driver.seals(SealOf(m.phase.draft, m.committed.sequence + 1))
    case _ => true
  }

  /** What a stage future added to the consumption of kind `k`. */
  function SpentFn(k: BudgetKind): Slot -> nat {
    (s: Slot) => (if s.status.Waiting? then 0 else s.task.AdmissionFor(k)) + s.spent.At(k)
  }

  ghost predicate SpentFrom(start: Ledger, ledger: Ledger, slots: seq<Slot>) {
    forall k: BudgetKind :: ledger.usage.consumed.At(k) == start.usage.consumed.At(k) + SumBy(slots, SpentFn(k))
  }

  ghost predicate SlotOk(driver: Driver, snapshot: RunState, s: Slot) {
    match s.status
    case Waiting => s.spent == ZERO
    case Polled => Below(s.spent, driver.Reply(s.task, snapshot).cost)
    case Returned(o) => driver.Reply(s.task, snapshot).result == Ok(o) && s.spent == driver.Reply(s.task, snapshot).cost
  }

  /** A frontier that has begun: its loop head, tasks and ledger, the checkpoints sealed
      before it, and what the serial executor makes of it. */
  datatype Frontier = Frontier(head: Head, admitted: Admitted, ledger: Ledger, seals: seq<Checkpoint>, serial: Step) {
    function Snapshot(): RunState { head.state.(currentStages := head.frontier) }

    /** The stages one by one. */
    function Stages(driver: Driver): StagesResult { RunStages(driver, admitted.tasks, Snapshot(), ledger) }
  }

  /** How the serial executor goes on from the begun frontier. */
  ghost predicate Begun(graph: WorkflowGraph, driver: Driver, f: Frontier) {
    var r := f.Stages(driver);
    && f.ledger.Sound() && Holds(f.ledger, f.admitted.tasks) && f.ledger.limits == f.head.ledger.limits
    && (r.StagesOk? ==>
          && |r.outcomes| == |f.admitted.tasks|
          && f.serial == Finish(graph, driver.seals, f.head, f.Snapshot(), f.admitted,
                                FirstDraft(f.Snapshot(), f.admitted.attempts, r.ledger), f.admitted.tasks, r.outcomes))
    && (r.StagesErr? ==> f.serial.Ended? && f.serial.result.Err? && f.serial.result.error.StageError?)
  }

  /** Where a schedule of the frontier may stand. It fails in a stage only if the serial
      executor does too. */
  ghost predicate OnTrack(graph: WorkflowGraph, driver: Driver, f: Frontier, m: Machine) {
    match m.phase
    case AtHead => f.serial.Committed? && f.serial.head == m.committed && m.log.seals == f.seals + AsSeq(f.serial.sealed)
    case InWaves(b, slots, _) =>
      && b == f.admitted && m.committed == f.head && m.log.seals == f.seals && SpentFrom(f.ledger, m.ledger, slots)
      && forall i | 0 <= i < |slots| :: SlotOk(driver, m.state, slots[i])
    case Applying(b, outcomes, draft, applied) =>
      && b == f.admitted && m.committed == f.head && m.log.seals == f.seals && |applied| <= |outcomes| == |f.admitted.tasks|
      && f.serial == Finish(graph, driver.seals, f.head, m.state, f.admitted, draft,
                            f.admitted.tasks[|applied|..], outcomes[|applied|..])
    case Sealing(b, draft, _) =>
      && b == f.admitted && m.committed == f.head && m.log.seals == f.seals && f.head.sequence + 1 <= U64_MAX && draft.seal
      && f.serial == Conclude(driver.seals, f.head, m.state, f.admitted, draft)
    case Over(Cancelled) => m.log.seals == f.seals
    case Over(Finished(r)) =>
      && m.log.seals == f.seals
      && (if r.Err? && r.error.StageError? then f.Stages(driver).StagesErr? else f.serial == Ended(r, m.state, m.ledger))
  }

  // ---- the waves -----------------------------------------------------------

  lemma SlotStep(start: Ledger, ledger: Ledger, after: Ledger, slots: seq<Slot>, i: nat, slot: Slot)
    requires i < |slots| && SpentFrom(start, ledger, slots)
    requires forall k: BudgetKind :: after.usage.consumed.At(k) + SpentFn(k)(slots[i])
                                     == ledger.usage.consumed.At(k) + SpentFn(k)(slot)
    ensures SpentFrom(start, after, slots[i := slot])
  {
    forall k: BudgetKind
      ensures after.usage.consumed.At(k) == start.usage.consumed.At(k) + SumBy(slots[i := slot], SpentFn(k))
    {
      SumByUpdate(slots, i, slot, SpentFn(k));
    }
  }

  /** If what all stages need together fits, the serial order never runs short. */
  lemma {:induction false} SerialSucceeds(driver: Driver, tasks: seq<Task>, snapshot: RunState, ledger: Ledger)
    requires ledger.Sound() && Holds(ledger, tasks)
    requires forall i | 0 <= i < |tasks| :: driver.Reply(tasks[i], snapshot).result.Ok?
    requires forall k: BudgetKind :: ledger.usage.consumed.At(k) + SumBy(tasks, SpendFn(driver, snapshot, k)) <= ledger.limits.At(k)
    ensures RunStages(driver, tasks, snapshot, ledger).StagesOk?
    decreases tasks
  {
    if tasks != [] {
      CommitOneSpec(ledger, tasks);
      var started := CommitOne(ledger, tasks[0]);
      var cost := driver.Reply(tasks[0], snapshot).cost;
      forall k: BudgetKind
        ensures cost.At(k) <= started.Remaining(k)
        ensures started.usage.consumed.At(k) + cost.At(k) + SumBy(tasks[1..], SpendFn(driver, snapshot, k)) <= ledger.limits.At(k)
      {
        AdmissionsWithinSpend(driver, tasks[1..], snapshot, k);
      }
      var charged := ChargeCost(started, cost);
      SerialSucceeds(driver, tasks[1..], snapshot, charged);
    }
  }

  lemma {:induction false} AdmissionsWithinSpend(driver: Driver, tasks: seq<Task>, snapshot: RunState, k: BudgetKind)
    ensures SumBy(tasks, AdmissionFn(k)) <= SumBy(tasks, SpendFn(driver, snapshot, k))
  {
    if tasks != [] {
      AdmissionsWithinSpend(driver, tasks[1..], snapshot, k);
    }
  }

  /** When every future of the frontier has returned, in whatever order, the serial
      executor ends its stages with the same outcomes and the same ledger. */
  lemma WavesMatchSerial(driver: Driver, tasks: seq<Task>, snapshot: RunState, start: Ledger, ledger: Ledger, slots: seq<Slot>)
    requires start.Sound() && Holds(start, tasks) && ledger.Sound() && ledger.limits == start.limits
    requires |slots| == |tasks| && forall i | 0 <= i < |slots| :: slots[i].task == tasks[i] && slots[i].status.Returned?
    requires forall i | 0 <= i < |slots| :: SlotOk(driver, snapshot, slots[i])
    requires SpentFrom(start, ledger, slots) && ledger.usage.reserved == ZERO
    ensures RunStages(driver, tasks, snapshot, start) == StagesOk(Outcomes(slots), ledger)
  {
    forall k: BudgetKind
      ensures ledger.usage.consumed.At(k) == start.usage.consumed.At(k) + SumBy(tasks, SpendFn(driver, snapshot, k))
    {
      SumByCongruent(slots, SpentFn(k), tasks, SpendFn(driver, snapshot, k));
    }
    assert forall i | 0 <= i < |tasks| :: slots[i].task == tasks[i] && driver.Reply(tasks[i], snapshot).result.Ok?;
    SerialSucceeds(driver, tasks, snapshot, start);
    RunStagesSpec(driver, tasks, snapshot, start);
    var r := RunStages(driver, tasks, snapshot, start);
    TallyExtensional(r.ledger.usage.consumed, ledger.usage.consumed);
    assert r.outcomes == Outcomes(slots);
  }

  // ---- charges fit if they fit serially ------------------------------------

  lemma {:induction false} SumBySlack<T>(s: seq<T>, f: T -> nat, g: T -> nat, i: nat, slack: nat)
    requires i < |s| && f(s[i]) + slack <= g(s[i])
    requires forall j | 0 <= j < |s| :: f(s[j]) <= g(s[j])
    ensures SumBy(s, f) + slack <= SumBy(s, g)
  {
    if i == 0 {
      SumByBelow(s[1..], f, g);
    } else {
      SumBySlack(s[1..], f, g, i - 1, slack);
    }
  }

  lemma {:induction false} SumByBelow<T>(s: seq<T>, f: T -> nat, g: T -> nat)
    requires forall j | 0 <= j < |s| :: f(s[j]) <= g(s[j])
    ensures SumBy(s, f) <= SumBy(s, g)
  {
    if s != [] {
      SumByBelow(s[1..], f, g);
    }
  }

  lemma {:induction false} SumBySplit<T>(s: seq<T>, f: T -> nat, g: T -> nat, h: T -> nat)
    requires forall x :: h(x) == f(x) + g(x)
    ensures SumBy(s, h) == SumBy(s, f) + SumBy(s, g)
  {
    if s != [] {
      SumBySplit(s[1..], f, g, h);
    }
  }

  /** What a slot has used or holds of kind `k`. */
  function TakenFn(k: BudgetKind): Slot -> nat { (s: Slot) => s.task.AdmissionFor(k) + s.spent.At(k) }

  function NeededFn(driver: Driver, snapshot: RunState, k: BudgetKind): Slot -> nat {
    (s: Slot) => SpendFn(driver, snapshot, k)(s.task)
  }

  /** What the slots took of kind `k`, and what slot `i` still owes, is part of what all
      stages need. */
  lemma TakenWithinNeeded(driver: Driver, tasks: seq<Task>, snapshot: RunState, slots: seq<Slot>, i: nat, k: BudgetKind)
    requires |slots| == |tasks| && forall j | 0 <= j < |slots| :: slots[j].task == tasks[j]
    requires forall j | 0 <= j < |slots| :: SlotOk(driver, snapshot, slots[j])
    requires i < |slots| && slots[i].status.Polled?
    ensures SumBy(slots, SpentFn(k)) + SumBy(slots, WaitingFn(k)) + Owed(driver, snapshot, slots[i], k)
            <= SumBy(tasks, SpendFn(driver, snapshot, k))
  {
    SumByCongruent(slots, NeededFn(driver, snapshot, k), tasks, SpendFn(driver, snapshot, k));
    SumBySplit(slots, SpentFn(k), WaitingFn(k), TakenFn(k));
    forall j | 0 <= j < |slots| ensures TakenFn(k)(slots[j]) <= NeededFn(driver, snapshot, k)(slots[j]) {
      assert SlotOk(driver, snapshot, slots[j]);
    }
    assert SlotOk(driver, snapshot, slots[i]);
    SumBySlack(slots, TakenFn(k), NeededFn(driver, snapshot, k), i, Owed(driver, snapshot, slots[i], k));
  }

  /** If the stages succeed one by one, no charge of any schedule is ever refused and no
      stage replies with an error. */
  lemma ChargesFit(driver: Driver, tasks: seq<Task>, snapshot: RunState, start: Ledger, ledger: Ledger, slots: seq<Slot>, i: nat, k: BudgetKind)
    requires start.Sound() && Holds(start, tasks) && ledger.limits == start.limits
    requires |slots| == |tasks| && forall j | 0 <= j < |slots| :: slots[j].task == tasks[j]
    requires forall j | 0 <= j < |slots| :: SlotOk(driver, snapshot, slots[j])
    requires SpentFrom(start, ledger, slots) && HoldsWaiting(ledger, slots)
    requires RunStages(driver, tasks, snapshot, start).StagesOk?
    requires i < |slots| && slots[i].status.Polled?
    ensures Owed(driver, snapshot, slots[i], k) <= ledger.Remaining(k)
    ensures driver.Reply(slots[i].task, snapshot).result.Ok?
  {
    RunStagesSpec(driver, tasks, snapshot, start);
    var r := RunStages(driver, tasks, snapshot, start);
    assert driver.Reply(tasks[i], snapshot).result == Ok(r.outcomes[i]);
    TakenWithinNeeded(driver, tasks, snapshot, slots, i, k);
    assert r.ledger.usage.consumed.At(k) + r.ledger.usage.reserved.At(k) <= r.ledger.limits.At(k);
  }

  /** A stage that fails in some schedule makes the serial executor fail too. */
  lemma FailureIsSerial(driver: Driver, tasks: seq<Task>, snapshot: RunState, start: Ledger, ledger: Ledger, slots: seq<Slot>, i: nat,
                        message: string)
    requires start.Sound() && Holds(start, tasks) && ledger.limits == start.limits
    requires |slots| == |tasks| && forall j | 0 <= j < |slots| :: slots[j].task == tasks[j]
    requires forall j | 0 <= j < |slots| :: SlotOk(driver, snapshot, slots[j])
    requires SpentFrom(start, ledger, slots) && HoldsWaiting(ledger, slots)
    requires i < |slots| && slots[i].status.Polled?
    requires || driver.Reply(slots[i].task, snapshot).result == Err(message)
             || exists k: BudgetKind :: Owed(driver, snapshot, slots[i], k) > ledger.Remaining(k)
    ensures RunStages(driver, tasks, snapshot, start).StagesErr?
  {
    if RunStages(driver, tasks, snapshot, start).StagesOk? {
      var k: BudgetKind :| (exists j: BudgetKind :: Owed(driver, snapshot, slots[i], j) > ledger.Remaining(j)) ==>
                             Owed(driver, snapshot, slots[i], k) > ledger.Remaining(k);
      ChargesFit(driver, tasks, snapshot, start, ledger, slots, i, k);
    }
  }

  // ---- one action ----------------------------------------------------------

  /** The frontier that begins at a loop head. */
  ghost function FrontierAt(graph: WorkflowGraph, driver: Driver, h: Head, seals: seq<Checkpoint>): Frontier
    requires Begin(graph, h).Started?
  {
    var b := Begin(graph, h);
    Frontier(h, b.admitted, b.ledger, seals, FrontierStep(graph, driver, h))
  }

  lemma BegunSerially(graph: WorkflowGraph, driver: Driver, h: Head, seals: seq<Checkpoint>)
    requires HeadOk(graph, h) && Begin(graph, h).Started?
    ensures Begun(graph, driver, FrontierAt(graph, driver, h, seals))
  {
    BeginSpec(graph, h);
    var b := Begin(graph, h);
    RunStagesLength(driver, b.admitted.tasks, b.state, b.ledger);
    RunStagesSpec(driver, b.admitted.tasks, b.state, b.ledger);
  }

  lemma FreshSlotsSpentNothing(start: Ledger, ledger: Ledger, tasks: seq<Task>)
    requires ledger.usage.consumed == start.usage.consumed
    ensures SpentFrom(start, ledger, InitialSlots(tasks))
  {
    var slots := InitialSlots(tasks);
    forall k: BudgetKind ensures SumBy(slots, SpentFn(k)) == 0 {
      SumByZero(slots, SpentFn(k));
    }
  }

  /** A frontier that starts puts the machine on its track. */
  lemma StartedOnTrack(graph: WorkflowGraph, width: nat, driver: Driver, m: Machine)
    requires m.phase.AtHead? && Begin(graph, m.committed).Started?
    ensures var n := Do(graph, width, m, Start);
            && n.committed == m.committed && n.log == m.log && n.phase.InWaves?
            && OnTrack(graph, driver, FrontierAt(graph, driver, m.committed, m.log.seals), n)
  {
    var b := Begin(graph, m.committed);
    FreshSlotsSpentNothing(b.ledger, b.ledger, b.admitted.tasks);
  }

  lemma PollOnTrack(graph: WorkflowGraph, width: nat, driver: Driver, f: Frontier, m: Machine, i: nat)
    requires OnTrack(graph, driver, f, m) && Enabled(width, m, Poll(i))
    ensures OnTrack(graph, driver, f, Do(graph, width, m, Poll(i)))
  {
    var slot := m.phase.slots[i];
    SlotStep(f.ledger, m.ledger, CommitOne(m.ledger, slot.task), m.phase.slots, i, slot.(status := Polled));
  }

  lemma ChargeOnTrack(graph: WorkflowGraph, width: nat, driver: Driver, f: Frontier, m: Machine, i: nat, k: BudgetKind, n: nat)
    requires OnTrack(graph, driver, f, m)
    requires Enabled(width, m, Charge(i, k, n)) && Obeys(driver, width, m, Charge(i, k, n))
    ensures OnTrack(graph, driver, f, Do(graph, width, m, Charge(i, k, n)))
  {
    var slot := m.phase.slots[i];
    SlotStep(f.ledger, m.ledger, m.ledger.Spend(k, n), m.phase.slots, i, slot.(spent := Bump(slot.spent, k, n)));
    assert SlotOk(driver, m.state, slot);
    assert SlotOk(driver, m.state, slot.(spent := Bump(slot.spent, k, n)));
  }

  lemma ReturnOnTrack(graph: WorkflowGraph, width: nat, driver: Driver, f: Frontier, m: Machine, i: nat, outcome: StageOutcome)
    requires OnTrack(graph, driver, f, m)
    requires Enabled(width, m, Return(i, outcome)) && Obeys(driver, width, m, Return(i, outcome))
    ensures OnTrack(graph, driver, f, Do(graph, width, m, Return(i, outcome)))
  {
    SlotStep(f.ledger, m.ledger, m.ledger, m.phase.slots, i, m.phase.slots[i].(status := Returned(outcome)));
  }

  lemma FailOnTrack(graph: WorkflowGraph, width: nat, driver: Driver, f: Frontier, initial: Head, m: Machine, i: nat, message: string)
    requires Begun(graph, driver, f) && Inv(graph, initial, m) && OnTrack(graph, driver, f, m)
    requires Enabled(width, m, Fail(i, message)) && Obeys(driver, width, m, Fail(i, message))
    ensures OnTrack(graph, driver, f, Do(graph, width, m, Fail(i, message)))
  {
    assert m.state == f.Snapshot();
    FailureIsSerial(driver, f.admitted.tasks, m.state, f.ledger, m.ledger, m.phase.slots, i, message);
  }

  lemma JoinOnTrack(graph: WorkflowGraph, width: nat, driver: Driver, f: Frontier, initial: Head, m: Machine)
    requires Begun(graph, driver, f) && Inv(graph, initial, m) && OnTrack(graph, driver, f, m) && Enabled(width, m, Join)
    ensures OnTrack(graph, driver, f, Do(graph, width, m, Join))
  {
    assert m.ledger.usage.reserved == ZERO by {
      JoinKeeps(graph, width, initial, m);
    }
    WavesMatchSerial(driver, f.admitted.tasks, m.state, f.ledger, m.ledger, m.phase.slots);
    var outcomes := Outcomes(m.phase.slots);
    assert f.admitted.tasks[0..] == f.admitted.tasks && outcomes[0..] == outcomes;
    FinishIgnoresBudget(graph, driver.seals, f.head, m.state, f.admitted, FirstDraft(m.state, f.admitted.attempts, m.ledger),
                        f.admitted.tasks, outcomes, m.ledger.usage);
  }

  /** The exit state of a frontier does not depend on the stale budget it began with. */
  lemma FinishIgnoresBudget(graph: WorkflowGraph, seals: Checkpoint -> bool, h: Head, state: RunState, a: Admitted, d: Draft,
                            tasks: seq<Task>, outcomes: seq<StageOutcome>, usage: BudgetUsage)
    requires |tasks| == |outcomes|
    ensures Finish(graph, seals, h, state, a, d, tasks, outcomes)
         == Finish(graph, seals, h, state.(budget := usage), a, d, tasks, outcomes)
  {
  }

  /** Applying the next outcome is the next step of the serial application. */
  lemma FinishUnrolls(graph: WorkflowGraph, seals: Checkpoint -> bool, h: Head, state: RunState, a: Admitted, d: Draft,
                      outcomes: seq<StageOutcome>, n: nat)
    requires |outcomes| == |a.tasks| && n < |outcomes|
    ensures var r := ApplyStage(graph, d, a.tasks[n], outcomes[n]);
            Finish(graph, seals, h, state, a, d, a.tasks[n..], outcomes[n..])
            == if r.Err? then Ended(Err(r.error), state.(budget := d.ledger.usage), d.ledger)
               else Finish(graph, seals, h, state, a, r.value, a.tasks[n + 1..], outcomes[n + 1..])
  {
    var tasks, rest := a.tasks[n..], outcomes[n..];
    assert tasks[0] == a.tasks[n] && rest[0] == outcomes[n];
    assert tasks[1..] == a.tasks[n + 1..] && rest[1..] == outcomes[n + 1..];
  }

  lemma ApplyOnTrack(graph: WorkflowGraph, width: nat, driver: Driver, f: Frontier, m: Machine)
    requires DraftSettled(m) && OnTrack(graph, driver, f, m) && Enabled(width, m, Apply)
    ensures OnTrack(graph, driver, f, Do(graph, width, m, Apply))
  {
    var n := |m.phase.applied|;
    FinishUnrolls(graph, driver.seals, f.head, m.state, f.admitted, m.phase.draft, m.phase.outcomes, n);
    ApplyStageErrors(graph, m.phase.draft, f.admitted.tasks[n], m.phase.outcomes[n]);
    var r := ApplyStage(graph, m.phase.draft, f.admitted.tasks[n], m.phase.outcomes[n]);
    if r.Ok? {
      FinishIgnoresBudget(graph, driver.seals, f.head, m.state, f.admitted, r.value, f.admitted.tasks[n + 1..],
                          m.phase.outcomes[n + 1..], r.value.ledger.usage);
    }
  }

  lemma ApplyStageErrors(graph: WorkflowGraph, d: Draft, task: Task, outcome: StageOutcome)
    ensures var r := ApplyStage(graph, d, task, outcome); r.Err? ==> !r.error.StageError?
  {
  }

  /** The draft's ledger is the shared one, with nothing reserved. */
  ghost predicate DraftSettled(m: Machine) {
    (m.phase.Applying? || m.phase.Sealing?) && m.phase.draft.ledger == m.ledger && m.ledger.usage.reserved == ZERO
  }

  lemma DecideOnTrack(graph: WorkflowGraph, width: nat, driver: Driver, f: Frontier, m: Machine)
    requires DraftSettled(m) && OnTrack(graph, driver, f, m) && Enabled(width, m, Decide)
    ensures OnTrack(graph, driver, f, Do(graph, width, m, Decide))
  {
    var n := |m.phase.applied|;
    assert f.admitted.tasks[n..] == [] && m.phase.outcomes[n..] == [];
    assert ApplyAll(graph, m.phase.draft, [], []) == Ok(m.phase.draft);
  }

  lemma SealOnTrack(graph: WorkflowGraph, width: nat, driver: Driver, f: Frontier, m: Machine, ok: bool)
    requires DraftSettled(m) && OnTrack(graph, driver, f, m)
    requires Enabled(width, m, Seal(ok)) && Obeys(driver, width, m, Seal(ok))
    ensures OnTrack(graph, driver, f, Do(graph, width, m, Seal(ok)))
  {
  }

  lemma WaveStepOnTrack(graph: WorkflowGraph, width: nat, driver: Driver, f: Frontier, initial: Head, m: Machine, action: Action)
    requires Begun(graph, driver, f) && Inv(graph, initial, m) && OnTrack(graph, driver, f, m) && m.phase.InWaves?
    requires Enabled(width, m, action) && Obeys(driver, width, m, action)
    ensures OnTrack(graph, driver, f, Do(graph, width, m, action))
  {
    match action
    case Poll(i) => PollOnTrack(graph, width, driver, f, m, i);
    case Charge(i, k, n) => ChargeOnTrack(graph, width, driver, f, m, i, k, n);
    case Return(i, outcome) => ReturnOnTrack(graph, width, driver, f, m, i, outcome);
    case Fail(i, message) => FailOnTrack(graph, width, driver, f, initial, m, i, message);
    case NextWave =>
    case Join => JoinOnTrack(graph, width, driver, f, initial, m);
    case Cancel =>
  }

  /** Every action of an obeying schedule stays on the track of its frontier. */
  lemma StepOnTrack(graph: WorkflowGraph, width: nat, driver: Driver, f: Frontier, initial: Head, m: Machine, action: Action)
    requires Begun(graph, driver, f) && Inv(graph, initial, m) && OnTrack(graph, driver, f, m)
    requires Enabled(width, m, action) && Obeys(driver, width, m, action) && !m.phase.AtHead?
    ensures OnTrack(graph, driver, f, Do(graph, width, m, action))
  {
    if m.phase.InWaves? {
      WaveStepOnTrack(graph, width, driver, f, initial, m, action);
    } else {
      match action
      case Apply => ApplyOnTrack(graph, width, driver, f, m);
      case Decide => DecideOnTrack(graph, width, driver, f, m);
      case Seal(ok) => SealOnTrack(graph, width, driver, f, m, ok);
      case Cancel =>
    }
  }

  // ---- spend across retries and resumes ------------------------------------

  /** Any schedule of any driver that starts from a merged floor, however it ends, leaves
      the caller with at least the floor and at least what the ledger had. */
  lemma FloorIsNeverForgotten(graph: WorkflowGraph, width: nat, ledger: Ledger, floor: BudgetUsage, head: Head, actions: seq<Action>)
    requires ledger.Sound() && ledger.MergeFloor(floor) == Ok(head.ledger)
    requires HeadOk(graph, head) && Possible(graph, width, Launched(head), actions)
    ensures var m := After(graph, width, Launched(head), actions);
            m.phase.Over? ==> Below(floor.consumed, m.state.budget.consumed) && Below(ledger.usage.consumed, m.state.budget.consumed)
  {
    MergeFloorIsMonotoneAndIdempotent(ledger, floor);
    SpendIsNeverForgotten(graph, width, head, actions);
    BelowTrans(floor.consumed, head.state.budget.consumed, After(graph, width, Launched(head), actions).state.budget.consumed);
    BelowTrans(ledger.usage.consumed, head.state.budget.consumed, After(graph, width, Launched(head), actions).state.budget.consumed);
  }

  lemma BelowTrans(a: Tally, b: Tally, c: Tally)
    requires Below(a, b)
    ensures Below(b, c) ==> Below(a, c)
  {
  }

  /** At every exit of every schedule of a resumed run, cancellation included, the durable
      budget is below neither the checkpoint's, nor the caller's, nor the ledger's. */
  lemma {:induction false} ResumedSpendIsNeverForgotten(graph: WorkflowGraph, width: nat, ledger: Ledger, c: Checkpoint, caller: RunState,
                                                        actions: seq<Action>)
    requires ledger.Sound() && ResumeCheck(graph, c, caller).None? && ledger.MergeFloor(Floor(c, caller)).Ok?
    requires Total(c.state.attempts) <= Min(graph.limits.maximumTransitions, U32_MAX)
    requires Possible(graph, width, Launched(ResumedHead(c, ledger.MergeFloor(Floor(c, caller)).value)), actions)
    ensures var m := After(graph, width, Launched(ResumedHead(c, ledger.MergeFloor(Floor(c, caller)).value)), actions);
            m.phase.Over? ==> && Below(c.state.budget.consumed, m.state.budget.consumed)
                              && Below(caller.budget.consumed, m.state.budget.consumed)
                              && Below(ledger.usage.consumed, m.state.budget.consumed)
  {
    var floor := Floor(c, caller);
    var head := ResumedHead(c, ledger.MergeFloor(floor).value);
    MergeFloorIsMonotoneAndIdempotent(ledger, floor);
    FloorIsNeverForgotten(graph, width, ledger, floor, head, actions);
    var end := After(graph, width, Launched(head), actions).state.budget.consumed;
    BelowTrans(c.state.budget.consumed, floor.consumed, end);
    BelowTrans(caller.budget.consumed, floor.consumed, end);
  }

  // ---- every schedule of a whole run ---------------------------------------

  predicate StageFailed(r: Result<TerminalOutcome, Error>) { r.Err? && r.error.StageError? }

  /** The run ended as the serial one does, seals included. If a stage failed, it failed
      there too, after the same seals; which stage was reported, and what the others
      had charged by then, is up to the schedule. */
  ghost predicate SameEnd(whole: RunResult, r: Result<TerminalOutcome, Error>, m: Machine) {
    || whole == RunResult(r, m.state, m.ledger, m.log.seals)
    || (StageFailed(r) && StageFailed(whole.result) && whole.seals == m.log.seals)
  }

  /** `step` runs a frontier serially with this driver. */
  ghost predicate Serially(graph: WorkflowGraph, driver: Driver, step: Stepper) {
    Lawful(graph, step) && forall h: Head :: step(h) == FrontierStep(graph, driver, h)
  }

  /** Where a schedule of the whole serial run `whole` may stand. */
  ghost predicate RunTrack(graph: WorkflowGraph, driver: Driver, step: Stepper, whole: RunResult, m: Machine)
    requires Lawful(graph, step) && HeadOk(graph, m.committed)
  {
    match m.phase
    case AtHead => whole == Continue(m.log.seals, Run(graph, step, m.committed))
    case Over(Cancelled) => m.log.seals <= whole.seals
    case Over(Finished(r)) => SameEnd(whole, r, m)
    case _ =>
      && whole == Continue(m.log.seals, Run(graph, step, m.committed))
      && Begin(graph, m.committed).Started?
      && OnTrack(graph, driver, FrontierAt(graph, driver, m.committed, m.log.seals), m)
  }

  /** On the track of a frontier that the serial run reached, the machine is on the track
      of that run. */
  lemma LandsOnRun(graph: WorkflowGraph, driver: Driver, step: Stepper, whole: RunResult, f: Frontier, m: Machine)
    requires Serially(graph, driver, step) && HeadOk(graph, f.head) && HeadOk(graph, m.committed)
    requires Begin(graph, f.head).Started? && f == FrontierAt(graph, driver, f.head, f.seals)
    requires Begun(graph, driver, f) && OnTrack(graph, driver, f, m) && whole == Continue(f.seals, Run(graph, step, f.head))
    ensures RunTrack(graph, driver, step, whole, m)
  {
    assert step(f.head) == f.serial;
    RunUnrolls(graph, step, f.head, f.seals);
  }

  lemma StepOnRun(graph: WorkflowGraph, width: nat, driver: Driver, step: Stepper, whole: RunResult, initial: Head, m: Machine, action: Action)
    requires Serially(graph, driver, step) && Inv(graph, initial, m) && RunTrack(graph, driver, step, whole, m)
    requires Enabled(width, m, action) && Obeys(driver, width, m, action)
    ensures HeadOk(graph, Do(graph, width, m, action).committed)
    ensures RunTrack(graph, driver, step, whole, Do(graph, width, m, action))
  {
    StepKeepsInv(graph, width, initial, m, action);
    if m.phase.AtHead? {
      if action.Start? {
        StartOnRun(graph, width, driver, step, whole, m);
      }
    } else {
      var f := FrontierAt(graph, driver, m.committed, m.log.seals);
      BegunSerially(graph, driver, m.committed, m.log.seals);
      StepOnTrack(graph, width, driver, f, initial, m, action);
      LandsOnRun(graph, driver, step, whole, f, Do(graph, width, m, action));
    }
  }

  lemma StartOnRun(graph: WorkflowGraph, width: nat, driver: Driver, step: Stepper, whole: RunResult, m: Machine)
    requires Serially(graph, driver, step) && m.phase.AtHead? && HeadOk(graph, m.committed) && m.ledger == m.committed.ledger
    requires whole == Continue(m.log.seals, Run(graph, step, m.committed))
    ensures HeadOk(graph, Do(graph, width, m, Start).committed)
    ensures RunTrack(graph, driver, step, whole, Do(graph, width, m, Start))
  {
    assert step(m.committed) == FrontierStep(graph, driver, m.committed);
    if Begin(graph, m.committed).Started? {
      StartedOnTrack(graph, width, driver, m);
    } else {
      StoppedSerially(graph, driver, m.committed);
      RunUnrolls(graph, step, m.committed, m.log.seals);
    }
  }

  /** The driver takes all of these actions. */
  ghost predicate ObeysAll(graph: WorkflowGraph, width: nat, driver: Driver, m: Machine, actions: seq<Action>)
    requires Possible(graph, width, m, actions)
    decreases actions
  {
    actions == []
    || (Obeys(driver, width, m, actions[0]) && ObeysAll(graph, width, driver, Do(graph, width, m, actions[0]), actions[1..]))
  }

  lemma {:induction false} StaysOnRun(graph: WorkflowGraph, width: nat, driver: Driver, step: Stepper, whole: RunResult, initial: Head,
                                      m: Machine, actions: seq<Action>)
    requires Serially(graph, driver, step) && Inv(graph, initial, m) && RunTrack(graph, driver, step, whole, m)
    requires Possible(graph, width, m, actions) && ObeysAll(graph, width, driver, m, actions)
    ensures Inv(graph, initial, After(graph, width, m, actions))
    ensures RunTrack(graph, driver, step, whole, After(graph, width, m, actions))
    decreases actions
  {
    if actions != [] {
      StepOnRun(graph, width, driver, step, whole, initial, m, actions[0]);
      StepKeepsInv(graph, width, initial, m, actions[0]);
      StaysOnRun(graph, width, driver, step, whole, initial, Do(graph, width, m, actions[0]), actions[1..]);
    }
  }

  lemma LaunchedOnRun(graph: WorkflowGraph, driver: Driver, step: Stepper, head: Head)
    requires HeadOk(graph, head) && Lawful(graph, step)
    ensures Inv(graph, head, Launched(head))
    ensures RunTrack(graph, driver, step, Run(graph, step, head), Launched(head))
  {
    LaunchedInv(graph, head);
    assert [] + Run(graph, step, head).seals == Run(graph, step, head).seals;
  }

  lemma StepperIsSerial(graph: WorkflowGraph, driver: Driver)
    ensures Serially(graph, driver, SerialStepper(graph, driver))
  {
  }

  /** Wave execution refines serial execution, over whole runs. Take any width, any order
      of polls, charges and returns inside the waves of every frontier, and let the
      driver be deterministic. A schedule that ends has the result, the caller's state,
      the ledger and the checkpoints of the serial run, or else a stage failed in both
      after the same checkpoints. A schedule that was cancelled or is under way has
      sealed a prefix of the serial run's checkpoints. */
  lemma {:induction false} EveryScheduleIsSerial(graph: WorkflowGraph, width: nat, driver: Driver, head: Head, actions: seq<Action>)
    requires HeadOk(graph, head)
    requires Possible(graph, width, Launched(head), actions) && ObeysAll(graph, width, driver, Launched(head), actions)
    ensures var m := After(graph, width, Launched(head), actions);
            var whole := Run(graph, SerialStepper(graph, driver), head);
            && m.log.seals <= whole.seals
            && (m.phase.Over? && m.phase.exit.Finished? ==> SameEnd(whole, m.phase.exit.result, m))
  {
    var step := SerialStepper(graph, driver);
    var whole := Run(graph, step, head);
    StepperIsSerial(graph, driver);
    LaunchedOnRun(graph, driver, step, head);
    StaysOnRun(graph, width, driver, step, whole, head, Launched(head), actions);
    SealsSoFar(graph, driver, step, whole, After(graph, width, Launched(head), actions));
  }

  lemma SealsSoFar(graph: WorkflowGraph, driver: Driver, step: Stepper, whole: RunResult, m: Machine)
    requires Lawful(graph, step) && HeadOk(graph, m.committed) && RunTrack(graph, driver, step, whole, m)
    ensures m.log.seals <= whole.seals
    ensures m.phase.Over? && m.phase.exit.Finished? ==> SameEnd(whole, m.phase.exit.result, m)
  {
  }

  /** Resuming and rescheduling together: a fresh process that resumes any checkpoint of a
      serial run, at any width and in any order, ends with the result, state, ledger and
      checkpoints of the rest of the run that was never interrupted, or a stage failed
      where one fails in that rest. */
  lemma {:induction false} ResumedScheduleIsTheRest(graph: WorkflowGraph, width: nat, driver: Driver, head: Head, i: nat, caller: RunState,
                                                    resumed: Head, actions: seq<Action>)
    requires Resumes(graph, SerialStepper(graph, driver), head, i, caller, resumed)
    requires Possible(graph, width, Launched(resumed), actions) && ObeysAll(graph, width, driver, Launched(resumed), actions)
    ensures var whole := Run(graph, SerialStepper(graph, driver), head);
            var rest := whole.(seals := whole.seals[i + 1..]);
            var m := After(graph, width, Launched(resumed), actions);
            && m.log.seals <= rest.seals
            && (m.phase.Over? && m.phase.exit.Finished? ==> SameEnd(rest, m.phase.exit.result, m))
  {
    ResumedHeadContinues(graph, SerialStepper(graph, driver), head, i, caller, resumed);
    EveryScheduleIsSerial(graph, width, driver, resumed, actions);
  }

  /** So when no stage fails serially, the schedule cannot be observed. */
  lemma SchedulesAgree(graph: WorkflowGraph, width: nat, driver: Driver, head: Head, actions: seq<Action>)
    requires HeadOk(graph, head)
    requires Possible(graph, width, Launched(head), actions) && ObeysAll(graph, width, driver, Launched(head), actions)
    requires var m := After(graph, width, Launched(head), actions); m.phase.Over? && m.phase.exit.Finished?
    requires !StageFailed(Run(graph, SerialStepper(graph, driver), head).result)
    ensures var m := After(graph, width, Launched(head), actions);
            Run(graph, SerialStepper(graph, driver), head) == RunResult(m.phase.exit.result, m.state, m.ledger, m.log.seals)
  {
    EveryScheduleIsSerial(graph, width, driver, head, actions);
  }
}
