/** The executor as a step machine. A frontier runs in bounded waves; inside a
wave the stages are polled, charge the ledger and return in any order; the run may
be dropped at every await point. An execution is any sequence of actions that are
enabled in turn, so a fact about all executions is a fact about all schedules, all
drivers and all cancellation points. */
module Waves {
  import opened Common
  import opened Budget
  import opened Workflow
  import opened Serial

  datatype Status = Waiting | Polled | Returned(outcome: StageOutcome)

  /** A stage future of the frontier and what its driver call charged so far. */
  datatype Slot = Slot(task: Task, status: Status, spent: Tally)

  datatype Exit = Finished(result: Result<TerminalOutcome, Error>) | Cancelled

  /** A stage attempt whose outcome was applied. */
  datatype Done = Done(task: Task, outcome: StageOutcome)

  datatype Phase =
    | AtHead
    | InWaves(a: Admitted, slots: seq<Slot>, first: nat)
    | Applying(a: Admitted, outcomes: seq<StageOutcome>, draft: Draft, applied: seq<Done>)
    | Sealing(a: Admitted, draft: Draft, applied: seq<Done>)
    | Over(exit: Exit)

  /** What was observably done: stage attempts started, repair edges taken, the
      charges of drivers, the attempts that were committed and the checkpoints sealed. */
  datatype Log = Log(started: seq<Task>, repairs: nat, driver: Tally, history: seq<Done>, seals: seq<Checkpoint>)

  /** `committed` is the last loop head, `state` the caller's state. */
  datatype Machine = Machine(committed: Head, state: RunState, ledger: Ledger, phase: Phase, log: Log)

  datatype Action =
    | Start
    | Poll(i: nat)
    | Charge(i: nat, kind: BudgetKind, amount: nat)
    | Return(i: nat, outcome: StageOutcome)
    | Fail(i: nat, message: string)
    | NextWave
    | Join
    | Apply
    | Decide
    | Seal(ok: bool)
    | Cancel

  function InitialSlots(tasks: seq<Task>): (slots: seq<Slot>)
    ensures |slots| == |tasks| && forall i | 0 <= i < |slots| :: slots[i] == Slot(tasks[i], Waiting, ZERO)
  {
    seq(|tasks|, i requires 0 <= i < |tasks| => Slot(tasks[i], Waiting, ZERO))
  }

  /** Dropping the futures that were never polled releases their admissions. */
  function ReleaseWaiting(ledger: Ledger, slots: seq<Slot>): Ledger
    decreases slots
  {
    if slots == [] then ledger
    else if slots[0].status.Waiting? && slots[0].task.Admission().Some?
    then ReleaseWaiting(ledger.Free(slots[0].task.Admission().value, 1), slots[1..])
    else ReleaseWaiting(ledger, slots[1..])
  }

  function Outcomes(slots: seq<Slot>): (r: seq<StageOutcome>)
    requires forall i | 0 <= i < |slots| :: slots[i].status.Returned?
    ensures |r| == |slots| && forall i | 0 <= i < |slots| :: r[i] == slots[i].status.outcome
  {
    seq(|slots|, i requires 0 <= i < |slots| => slots[i].status.outcome)
  }

  predicate InWave(p: Phase, width: nat, i: nat) {
    p.InWaves? && p.first <= i < p.first + width && i < |p.slots|
  }

  ghost predicate WaveReturned(p: Phase, width: nat)
    requires p.InWaves?
  {
    forall i | 0 <= i < |p.slots| && i < p.first + width :: p.slots[i].status.Returned?
  }

  predicate DriverKind(k: BudgetKind) { !(k.ToolCalls? || k.ModelCalls? || k.RepairIterations?) }

  ghost predicate Enabled(width: nat, m: Machine, action: Action) {
    match action
    case Start => m.phase.AtHead?
    case Poll(i) => InWave(m.phase, width, i) && m.phase.slots[i].status.Waiting?
    case Charge(i, k, n) =>
      InWave(m.phase, width, i) && m.phase.slots[i].status.Polled? && DriverKind(k) && n <= m.ledger.Remaining(k)
    case Return(i, _) => InWave(m.phase, width, i) && m.phase.slots[i].status.Polled?
    case Fail(i, _) => InWave(m.phase, width, i) && m.phase.slots[i].status.Polled?
    case NextWave => m.phase.InWaves? && WaveReturned(m.phase, width) && m.phase.first + width < |m.phase.slots|
    case Join => m.phase.InWaves? && WaveReturned(m.phase, width) && m.phase.first + width >= |m.phase.slots|
    case Apply => m.phase.Applying? && |m.phase.applied| < |m.phase.outcomes| && |m.phase.applied| < |m.phase.a.tasks|
    case Decide => m.phase.Applying? && |m.phase.applied| == |m.phase.outcomes|
    case Seal(_) => m.phase.Sealing?
    case Cancel => m.phase.InWaves? || m.phase.Sealing? || m.phase.AtHead?
  }

  function SetSlot(m: Machine, i: nat, slot: Slot): Machine
    requires m.phase.InWaves? && i < |m.phase.slots|
  {
    m.(phase := m.phase.(slots := m.phase.slots[i := slot]))
  }

  /** Leave the run: the caller's durable budget is published from the ledger. */
  function Leave(m: Machine, ledger: Ledger, exit: Exit): Machine {
    m.(ledger := ledger, state := m.state.(budget := ledger.usage.Settled()), phase := Over(exit))
  }

  function CommitDraft(m: Machine, a: Admitted, draft: Draft, applied: seq<Done>, sealed: seq<Checkpoint>): Machine {
    Machine(NextHead(draft, m.committed.sequence + 1, a.transitions), draft.state, draft.ledger, AtHead,
            m.log.(history := m.log.history + applied, seals := m.log.seals + sealed))
  }

  ghost function Do(graph: WorkflowGraph, width: nat, m: Machine, action: Action): Machine
    requires Enabled(width, m, action)
  {
    match action
    case Start =>
      (match Begin(graph, m.committed)
       case Stop(result, state) => m.(state := state, phase := Over(Finished(result)))
       case Started(a, ledger, state) => m.(state := state, ledger := ledger, phase := InWaves(a, InitialSlots(a.tasks), 0)))
    case Poll(i) =>
      var slot := m.phase.slots[i];
      SetSlot(m, i, slot.(status := Polled)).(
        ledger := CommitOne(m.ledger, slot.task), log := m.log.(started := m.log.started + [slot.task]))
    case Charge(i, k, n) =>
      var slot := m.phase.slots[i];
      SetSlot(m, i, slot.(spent := Bump(slot.spent, k, n))).(
        ledger := m.ledger.Spend(k, n), log := m.log.(driver := Bump(m.log.driver, k, n)))
    case Return(i, outcome) => SetSlot(m, i, m.phase.slots[i].(status := Returned(outcome)))
    case Fail(i, message) => Leave(m, ReleaseWaiting(m.ledger, m.phase.slots), Finished(Err(StageError(message))))
    case NextWave => m.(phase := m.phase.(first := m.phase.first + width))
    case Join =>
      m.(state := m.state.(budget := m.ledger.usage),
         phase := Applying(m.phase.a, Outcomes(m.phase.slots), FirstDraft(m.state, m.phase.a.attempts, m.ledger), []))
    case Apply => DoApply(graph, m)
    case Decide => DoDecide(m)
    case Seal(ok) =>
      if ok then CommitDraft(m, m.phase.a, m.phase.draft, m.phase.applied, [SealOf(m.phase.draft, m.committed.sequence + 1)])
      else Leave(m, m.ledger, Finished(Err(CheckpointFailed)))
    case Cancel =>
      Leave(m, if m.phase.InWaves? then ReleaseWaiting(m.ledger, m.phase.slots) else m.ledger, Cancelled)
  }

  function DoApply(graph: WorkflowGraph, m: Machine): Machine
    requires m.phase.Applying? && |m.phase.applied| < |m.phase.outcomes| && |m.phase.applied| < |m.phase.a.tasks|
  {
    var n := |m.phase.applied|;
    var task, outcome := m.phase.a.tasks[n], m.phase.outcomes[n];
    match ApplyStage(graph, m.phase.draft, task, outcome)
    case Err(e) => Leave(m, m.ledger, Finished(Err(e)))
    case Ok(d) =>
      m.(ledger := d.ledger, state := m.state.(budget := d.ledger.usage),
         phase := Applying(m.phase.a, m.phase.outcomes, d, m.phase.applied + [Done(task, outcome)]),
         log := m.log.(repairs := m.log.repairs + RepairsTaken(graph, m.phase.draft, task, outcome)))
  }

  function DoDecide(m: Machine): Machine
    requires m.phase.Applying?
  {
    if m.committed.sequence + 1 > U64_MAX then Leave(m, m.ledger, Finished(Err(SequenceOverflow)))
    else if m.phase.draft.seal then m.(phase := Sealing(m.phase.a, m.phase.draft, m.phase.applied))
    else CommitDraft(m, m.phase.a, m.phase.draft, m.phase.applied, [])
  }

  // ---- exactly-once accounting ---------------------------------------------

  /** What the log says was charged to kind `k`. */
  ghost function Charged(log: Log, k: BudgetKind): nat {
    SumBy(log.started, AdmissionFn(k)) + log.driver.At(k) + if k.RepairIterations? then log.repairs else 0
  }

  function WaitingFn(k: BudgetKind): Slot -> nat {
    (s: Slot) => if s.status.Waiting? then s.task.AdmissionFor(k) else 0
  }

  /** Exactly the unpolled stages hold a reservation. */
  ghost predicate HoldsWaiting(ledger: Ledger, slots: seq<Slot>) {
    forall k: BudgetKind :: ledger.usage.reserved.At(k) == SumBy(slots, WaitingFn(k))
  }

  /** Consumption is the starting consumption plus what the log shows. */
  ghost predicate Accounted(base: Tally, ledger: Ledger, log: Log) {
    forall k: BudgetKind :: ledger.usage.consumed.At(k) == base.At(k) + Charged(log, k)
  }

  lemma {:induction false} ReleaseWaitingSettles(ledger: Ledger, slots: seq<Slot>)
    requires HoldsWaiting(ledger, slots)
    ensures ReleaseWaiting(ledger, slots) == ledger.(usage := ledger.usage.Settled())
    decreases slots
  {
    if slots == [] {
      TallyExtensional(ledger.usage.reserved, ZERO);
    } else {
      var s := slots[0];
      var l := if s.status.Waiting? && s.task.Admission().Some? then ledger.Free(s.task.Admission().value, 1) else ledger;
      assert HoldsWaiting(l, slots[1..]);
      ReleaseWaitingSettles(l, slots[1..]);
    }
  }

  lemma SettledKeeps(base: Tally, ledger: Ledger, log: Log)
    requires ledger.Sound() && Accounted(base, ledger, log)
    ensures var l := ledger.(usage := ledger.usage.Settled());
            l.Sound() && Accounted(base, l, log) && l.usage.reserved == ZERO && l.limits == ledger.limits
  {
  }

  lemma PollAccounts(base: Tally, ledger: Ledger, slots: seq<Slot>, i: nat, log: Log)
    requires i < |slots| && slots[i].status.Waiting?
    requires ledger.Sound() && HoldsWaiting(ledger, slots) && Accounted(base, ledger, log)
    ensures var l := CommitOne(ledger, slots[i].task);
            && l.Sound() && l.limits == ledger.limits
            && HoldsWaiting(l, slots[i := slots[i].(status := Polled)])
            && Accounted(base, l, log.(started := log.started + [slots[i].task]))
  {
    var task := slots[i].task;
    var polled := slots[i].(status := Polled);
    forall k: BudgetKind
      ensures SumBy(slots[i := polled], WaitingFn(k)) + task.AdmissionFor(k) == SumBy(slots, WaitingFn(k))
      ensures SumBy(log.started + [task], AdmissionFn(k)) == SumBy(log.started, AdmissionFn(k)) + task.AdmissionFor(k)
    {
      SumByUpdate(slots, i, polled, WaitingFn(k));
      SumByAppend(log.started, task, AdmissionFn(k));
    }
  }

  lemma SlotUpdateKeepsHolds(ledger: Ledger, slots: seq<Slot>, i: nat, slot: Slot)
    requires i < |slots| && HoldsWaiting(ledger, slots)
    requires !slots[i].status.Waiting? && !slot.status.Waiting?
    ensures HoldsWaiting(ledger, slots[i := slot])
  {
    forall k: BudgetKind
      ensures SumBy(slots[i := slot], WaitingFn(k)) == SumBy(slots, WaitingFn(k))
    {
      SumByUpdate(slots, i, slot, WaitingFn(k));
    }
  }

  // ---- history -------------------------------------------------------------

  function ReportsOf(h: seq<Done>): seq<VerificationReport> {
    if h == [] then []
    else
      var d := h[|h| - 1];
      ReportsOf(h[..|h| - 1]) + if d.outcome.verification.Some? then [d.outcome.verification.value] else []
  }

  function PatchesOf(h: seq<Done>): seq<ArtifactRef> {
    if h == [] then [] else PatchesOf(h[..|h| - 1]) + h[|h| - 1].outcome.patches
  }

  function FailuresOf(h: seq<Done>): seq<FailureEvidence> {
    if h == [] then [] else FailuresOf(h[..|h| - 1]) + h[|h| - 1].outcome.failures
  }

  /** The plan is never dropped, and a replacement strictly raises its revision. */
  predicate PlanAdvances(before: Option<EngineeringPlan>, after: Option<EngineeringPlan>) {
    before.None? || (after.Some? && (after == before || after.value.revision > before.value.revision))
  }

  predicate PatchesNeedPlan(s: RunState) { s.patches == [] || s.plan.Some? }

  /** An applied attempt of a known stage carries a report exactly when the stage is
      a verification gate, and then the gate is trusted and the report is valid
      and belongs to this run. */
  ghost predicate Legitimate(graph: WorkflowGraph, s: RunState, d: Done) {
    && d.task.id in graph.stages && d.task.definition == graph.stages[d.task.id]
    && (d.outcome.verification.Some? <==> d.task.definition.kind.VerificationGate?)
    && (d.outcome.verification.Some? ==>
          && d.task.definition.trusted && d.outcome.verification.value.SupervisorValid()
          && d.outcome.verification.value.runId == s.runId && d.outcome.verification.value.candidateId == s.candidateId)
  }

  /** `s` is `initial` extended by exactly the outcomes of `h`. */
  ghost predicate Extends(graph: WorkflowGraph, initial: RunState, s: RunState, h: seq<Done>) {
    && s.runId == initial.runId && s.candidateId == initial.candidateId
    && s.verification == initial.verification + ReportsOf(h)
    && s.patches == initial.patches + PatchesOf(h)
    && s.failureEvidence == initial.failureEvidence + FailuresOf(h)
    && PlanAdvances(initial.plan, s.plan)
    && (PatchesNeedPlan(initial) ==> PatchesNeedPlan(s))
    && forall i | 0 <= i < |h| :: Legitimate(graph, initial, h[i])
  }

  function ReportOf(outcome: StageOutcome): seq<VerificationReport> {
    if outcome.verification.Some? then [outcome.verification.value] else []
  }

  /** What one applied outcome adds, and what it must have been to be applied. */
  lemma ApplyOutcomeSpec(graph: WorkflowGraph, s: RunState, task: Task, outcome: StageOutcome, usage: BudgetUsage)
    requires ApplyOutcome(s, task, outcome, usage).Ok?
    requires task.id in graph.stages && task.definition == graph.stages[task.id]
    ensures var n := ApplyOutcome(s, task, outcome, usage).value;
            && n.runId == s.runId && n.candidateId == s.candidateId
            && n.verification == s.verification + ReportOf(outcome)
            && n.patches == s.patches + outcome.patches
            && n.failureEvidence == s.failureEvidence + outcome.failures
            && PlanAdvances(s.plan, n.plan)
            && (PatchesNeedPlan(s) ==> PatchesNeedPlan(n))
            && Legitimate(graph, s, Done(task, outcome))
  {
    var verification := AdoptReport(s, task, outcome.verification);
    assert verification.Ok? && AdoptPlan(s.plan, outcome.plan).Ok?;
    assert s.verification + [] == s.verification;
  }

  lemma HistoryAppend(h: seq<Done>, d: Done)
    ensures ReportsOf(h + [d]) == ReportsOf(h) + ReportOf(d.outcome)
    ensures PatchesOf(h + [d]) == PatchesOf(h) + d.outcome.patches
    ensures FailuresOf(h + [d]) == FailuresOf(h) + d.outcome.failures
  {
    assert (h + [d])[..|h + [d]| - 1] == h;
  }

  lemma ApplyExtends(graph: WorkflowGraph, initial: RunState, s: RunState, task: Task, outcome: StageOutcome,
                     usage: BudgetUsage, h: seq<Done>)
    requires Extends(graph, initial, s, h)
    requires task.id in graph.stages && task.definition == graph.stages[task.id]
    requires ApplyOutcome(s, task, outcome, usage).Ok?
    ensures Extends(graph, initial, ApplyOutcome(s, task, outcome, usage).value, h + [Done(task, outcome)])
  {
    ApplyOutcomeSpec(graph, s, task, outcome, usage);
    HistoryAppend(h, Done(task, outcome));
    var n := ApplyOutcome(s, task, outcome, usage).value;
    GrownExtends(graph, initial, s, n, Done(task, outcome), h);
  }

  lemma GrownExtends(graph: WorkflowGraph, initial: RunState, s: RunState, n: RunState, d: Done, h: seq<Done>)
    requires Extends(graph, initial, s, h) && Legitimate(graph, s, d)
    requires n.runId == s.runId && n.candidateId == s.candidateId
    requires n.verification == s.verification + ReportOf(d.outcome)
    requires n.patches == s.patches + d.outcome.patches
    requires n.failureEvidence == s.failureEvidence + d.outcome.failures
    requires PlanAdvances(s.plan, n.plan) && (PatchesNeedPlan(s) ==> PatchesNeedPlan(n))
    ensures Extends(graph, initial, n, h + [d])
  {
    HistoryAppend(h, d);
    Regroup(initial.verification, ReportsOf(h), ReportOf(d.outcome));
    Regroup(initial.patches, PatchesOf(h), d.outcome.patches);
    Regroup(initial.failureEvidence, FailuresOf(h), d.outcome.failures);
    AllLegitimate(graph, initial, s, d, h);
  }

  lemma Regroup<T>(a: seq<T>, b: seq<T>, c: seq<T>)
    ensures a + b + c == a + (b + c)
  {
  }

  lemma AllLegitimate(graph: WorkflowGraph, initial: RunState, s: RunState, d: Done, h: seq<Done>)
    requires Legitimate(graph, s, d) && s.runId == initial.runId && s.candidateId == initial.candidateId
    requires forall i | 0 <= i < |h| :: Legitimate(graph, initial, h[i])
    ensures forall i | 0 <= i < |h + [d]| :: Legitimate(graph, initial, (h + [d])[i])
  {
    forall i | 0 <= i < |h + [d]| ensures Legitimate(graph, initial, (h + [d])[i]) {
      assert (h + [d])[i] == if i < |h| then h[i] else d;
    }
  }

  // ---- the invariant -------------------------------------------------------

  /** The caller's state may differ from the last committed one only in the
      durable budget and the displayed frontier. */
  ghost predicate Untouched(m: Machine) {
    m.state == m.committed.state.(budget := m.state.budget, currentStages := m.state.currentStages)
  }

  ghost predicate AdmittedOk(graph: WorkflowGraph, head: Head, a: Admitted) {
    && |a.tasks| == |head.frontier| > 0
    && a.transitions == head.transitions + |head.frontier|
    && a.transitions == Total(a.attempts) <= Min(graph.limits.maximumTransitions, U32_MAX)
    && forall i | 0 <= i < |a.tasks| :: Runnable(graph, a.tasks[i].id) && a.tasks[i].definition == graph.stages[a.tasks[i].id]
  }

  ghost predicate Drafting(graph: WorkflowGraph, initial: RunState, m: Machine, a: Admitted, draft: Draft, applied: seq<Done>) {
    && AdmittedOk(graph, m.committed, a)
    && DraftOk(draft, m.ledger.limits) && draft.ledger == m.ledger
    && m.state.budget == m.ledger.usage
    && draft.state.attempts == a.attempts
    && Extends(graph, initial, draft.state, m.log.history + applied)
    && (applied != [] ==> draft.frontier != {})
  }

  ghost predicate PhaseOk(graph: WorkflowGraph, initial: RunState, m: Machine) {
    match m.phase
    case AtHead => m.ledger == m.committed.ledger && m.state == m.committed.state
    case InWaves(a, slots, first) =>
      && AdmittedOk(graph, m.committed, a)
      && (forall i | 0 <= i < first && i < |slots| :: slots[i].status.Returned?)
      && m.state == m.committed.state.(currentStages := m.committed.frontier)
      && |slots| == |a.tasks| && (forall i | 0 <= i < |slots| :: slots[i].task == a.tasks[i])
      && HoldsWaiting(m.ledger, slots)
    case Applying(a, outcomes, draft, applied) =>
      && |outcomes| == |a.tasks| >= |applied|
      && Drafting(graph, initial, m, a, draft, applied)
    case Sealing(a, draft, applied) =>
      |applied| == |a.tasks| && Drafting(graph, initial, m, a, draft, applied)
    case Over(exit) =>
      && m.ledger.usage.reserved == ZERO && m.state.budget == m.ledger.usage
      && (exit == Finished(Ok(Succeeded)) ==> Verified(m.state))
  }

  /** The machine invariant, relative to the state and consumption the run began with. */
  ghost predicate Inv(graph: WorkflowGraph, initial: Head, m: Machine) {
    && HeadOk(graph, m.committed) && m.ledger.Sound() && m.ledger.limits == m.committed.ledger.limits
    && Accounted(initial.ledger.usage.consumed, m.ledger, m.log)
    && m.log.driver.tool == 0 && m.log.driver.model == 0 && m.log.driver.repair == 0
    && Extends(graph, initial.state, m.committed.state, m.log.history)
    && m.committed.transitions == initial.transitions + |m.log.history|
    && Untouched(m)
    && PhaseOk(graph, initial.state, m)
  }

  function Launched(head: Head): Machine {
    Machine(head, head.state, head.ledger, AtHead, Log([], 0, ZERO, [], []))
  }

  lemma LaunchedInv(graph: WorkflowGraph, head: Head)
    requires HeadOk(graph, head)
    ensures Inv(graph, head, Launched(head))
  {
  }
}
