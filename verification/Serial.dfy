/** The executor as a function: one frontier after another, the stages of a
frontier one by one in stage-id order. This is the reference that the concurrent
executor (module `Waves`) and the imperative one (module `Executor`) refine. */
module Serial {
  import opened Common
  import opened Budget
  import opened Workflow
  import Text

  /** What a driver may charge by itself: never a call or a repair iteration,
      which only the executor admits. */
  type DriverCost = t: Tally | t.tool == 0 && t.model == 0 && t.repair == 0 witness ZERO

  /** A stage attempt ends with a result after charging `cost` to the ledger. */
  datatype StageReply = StageReply(result: Result<StageOutcome, string>, cost: DriverCost)

  /** A deterministic trusted driver. */
  datatype Driver = Driver(stage: (StageDefinition, StageId, nat, RunState) -> StageReply, seals: Checkpoint -> bool) {
    function Reply(task: Task, snapshot: RunState): StageReply {
      stage(task.definition, task.id, task.attempt, snapshot)
    }
  }

  /** The executor at the head of its loop. */
  datatype Head = Head(state: RunState, ledger: Ledger, frontier: set<StageId>, sequence: nat, transitions: nat)

  // ---- admission of a whole frontier ---------------------------------------

  function ReserveAll(ledger: Ledger, tasks: seq<Task>): Result<Ledger, BudgetError>
    decreases tasks
  {
    if tasks == [] then Ok(ledger)
    else if tasks[0].Admission().None? then ReserveAll(ledger, tasks[1..])
    else
      match ledger.Reserve(tasks[0].Admission().value, 1)
      case Err(e) => Err(e)
      case Ok(l) => ReserveAll(l, tasks[1..])
  }

  function AdmissionFn(k: BudgetKind): Task -> nat { (t: Task) => t.AdmissionFor(k) }

  /** The ledger holds exactly one admission for every task that needs one. */
  ghost predicate Holds(ledger: Ledger, tasks: seq<Task>) {
    forall k: BudgetKind :: ledger.usage.reserved.At(k) == SumBy(tasks, AdmissionFn(k))
  }

  /** Whole-frontier admission succeeds exactly when every kind has room for all
      its calls at once; it then holds them all and spends nothing. */
  lemma {:induction false} ReserveAllSpec(ledger: Ledger, tasks: seq<Task>)
    requires ledger.Sound()
    ensures ReserveAll(ledger, tasks).Ok?
            <==> forall k: BudgetKind :: SumBy(tasks, AdmissionFn(k)) <= ledger.Remaining(k)
    ensures ReserveAll(ledger, tasks).Ok? ==>
              var l := ReserveAll(ledger, tasks).value;
              && l.Sound() && l.limits == ledger.limits && l.usage.consumed == ledger.usage.consumed
              && forall k: BudgetKind ::
                   l.usage.reserved.At(k) == ledger.usage.reserved.At(k) + SumBy(tasks, AdmissionFn(k))
    decreases tasks
  {
    if tasks != [] {
      var need := tasks[0].Admission();
      if need.None? {
        ReserveAllSpec(ledger, tasks[1..]);
      } else if ledger.Reserve(need.value, 1).Ok? {
        ReserveAllSpec(ledger.Hold(need.value, 1), tasks[1..]);
        ghost var held := ledger.Hold(need.value, 1);
        assert forall k: BudgetKind :: held.Remaining(k) + tasks[0].AdmissionFor(k) == ledger.Remaining(k);
      } else {
        assert SumBy(tasks, AdmissionFn(need.value)) > ledger.Remaining(need.value);
      }
    }
  }

  function CommitOne(ledger: Ledger, task: Task): Ledger {
    match task.Admission()
    case None => ledger
    case Some(k) => ledger.Free(k, 1).Spend(k, 1)
  }

  function ReleaseAll(ledger: Ledger, tasks: seq<Task>): Ledger
    decreases tasks
  {
    if tasks == [] then ledger
    else
      match tasks[0].Admission()
      case None => ReleaseAll(ledger, tasks[1..])
      case Some(k) => ReleaseAll(ledger.Free(k, 1), tasks[1..])
  }

  lemma {:induction false} ReleaseAllSettles(ledger: Ledger, tasks: seq<Task>)
    requires Holds(ledger, tasks)
    ensures ReleaseAll(ledger, tasks) == ledger.(usage := ledger.usage.Settled())
    decreases tasks
  {
    if tasks == [] {
      TallyExtensional(ledger.usage.reserved, ZERO);
    } else {
      var l := if tasks[0].Admission().None? then ledger else ledger.Free(tasks[0].Admission().value, 1);
      assert Holds(l, tasks[1..]);
      ReleaseAllSettles(l, tasks[1..]);
    }
  }

  // ---- running the stages --------------------------------------------------

  predicate Affordable(ledger: Ledger, cost: Tally) {
    forall k: BudgetKind :: cost.At(k) <= ledger.Remaining(k)
  }

  function ChargeCost(ledger: Ledger, cost: Tally): Ledger {
    ledger.(usage := ledger.usage.(consumed := PointwiseSum(ledger.usage.consumed, cost)))
  }

  datatype StagesResult = StagesOk(outcomes: seq<StageOutcome>, ledger: Ledger) | StagesErr(error: Error, ledger: Ledger)

  /** Each stage commits its admission when it starts. The first error stops the
      frontier, and the admissions of the stages that never started are released. */
  function RunStages(driver: Driver, tasks: seq<Task>, snapshot: RunState, ledger: Ledger): StagesResult
    decreases tasks
  {
    if tasks == [] then StagesOk([], ledger)
    else
      var started := CommitOne(ledger, tasks[0]);
      var reply := driver.Reply(tasks[0], snapshot);
      if !Affordable(started, reply.cost) then
        StagesErr(StageError("budget exhausted"), ReleaseAll(started, tasks[1..]))
      else
        var charged := ChargeCost(started, reply.cost);
        if reply.result.Err? then StagesErr(StageError(reply.result.error), ReleaseAll(charged, tasks[1..]))
        else
          match RunStages(driver, tasks[1..], snapshot, charged)
          case StagesErr(e, l) => StagesErr(e, l)
          case StagesOk(rest, l) => StagesOk([reply.result.value] + rest, l)
  }

  /** What one stage attempt adds to the consumption of kind `k`. */
  function SpendFn(driver: Driver, snapshot: RunState, k: BudgetKind): Task -> nat {
    (t: Task) => t.AdmissionFor(k) + driver.Reply(t, snapshot).cost.At(k)
  }

  lemma CommitOneSpec(ledger: Ledger, tasks: seq<Task>)
    requires tasks != [] && Holds(ledger, tasks)
    ensures var l := CommitOne(ledger, tasks[0]);
            && Holds(l, tasks[1..]) && l.limits == ledger.limits
            && (ledger.Sound() ==> l.Sound())
            && forall k: BudgetKind :: l.usage.consumed.At(k) == ledger.usage.consumed.At(k) + tasks[0].AdmissionFor(k)
  {
    var l := CommitOne(ledger, tasks[0]);
    assert forall k: BudgetKind :: SumBy(tasks, AdmissionFn(k)) == tasks[0].AdmissionFor(k) + SumBy(tasks[1..], AdmissionFn(k));
  }

  /** However the stages end, nothing stays reserved. If all succeed, the outcomes
      are the driver's replies in order, and consumption grew by exactly the
      admissions plus the driver's own charges. */
  lemma {:induction false} RunStagesSpec(driver: Driver, tasks: seq<Task>, snapshot: RunState, ledger: Ledger)
    requires ledger.Sound() && Holds(ledger, tasks)
    ensures var r := RunStages(driver, tasks, snapshot, ledger);
            && r.ledger.Sound() && r.ledger.limits == ledger.limits && r.ledger.usage.reserved == ZERO
            && Below(ledger.usage.consumed, r.ledger.usage.consumed)
            && (r.StagesErr? ==> r.error.StageError?)
            && (r.StagesOk? ==>
                  && |r.outcomes| == |tasks|
                  && (forall i | 0 <= i < |tasks| :: driver.Reply(tasks[i], snapshot).result == Ok(r.outcomes[i]))
                  && forall k: BudgetKind ::
                       r.ledger.usage.consumed.At(k)
                       == ledger.usage.consumed.At(k) + SumBy(tasks, SpendFn(driver, snapshot, k)))
    decreases tasks
  {
    if tasks == [] {
      TallyExtensional(ledger.usage.reserved, ZERO);
    } else {
      CommitOneSpec(ledger, tasks);
      var started := CommitOne(ledger, tasks[0]);
      var reply := driver.Reply(tasks[0], snapshot);
      ReleaseAllSettles(started, tasks[1..]);
      if Affordable(started, reply.cost) {
        var charged := ChargeCost(started, reply.cost);
        assert charged.Sound() && Holds(charged, tasks[1..]);
        ReleaseAllSettles(charged, tasks[1..]);
        RunStagesSpec(driver, tasks[1..], snapshot, charged);
      }
    }
  }

  // ---- one frontier --------------------------------------------------------

  datatype Begun =
    | Stop(result: Result<TerminalOutcome, Error>, state: RunState)
    | Started(admitted: Admitted, ledger: Ledger, state: RunState)

  predicate Verified(state: RunState) {
    && state.verification != []
    && var report := state.verification[|state.verification| - 1];
    report.passed && report.SupervisorValid()
  }

  datatype Plan = Halt(result: Result<TerminalOutcome, Error>, state: RunState) | Go(batch: seq<StageId>)

  /** Decides whether the run ends at this frontier; otherwise the whole frontier
      is scheduled, in stage-id order. */
  ghost function PlanFrontier(graph: WorkflowGraph, head: Head): (p: Plan)
    ensures p.Go? ==> p.batch == Text.Sorted(head.frontier) && forall id | id in p.batch :: Runnable(graph, id)
    ensures p.Halt? ==> p.state == if p.result.Ok? then head.state.(currentStages := {}) else head.state
    ensures p.Halt? && p.result == Ok(Succeeded) ==> Verified(head.state)
  {
    var ids := Text.Sorted(head.frontier);
    ClassifyScheduled(graph, ids, [], None);
    match Classify(graph, ids, [], None)
    case Unknown(id) => Halt(Err(MissingStage(id)), head.state)
    case FailureReached => Halt(Ok(RunFailed), head.state.(currentStages := {}))
    case Scheduled(batch, Some(id)) =>
      if batch != [] then Halt(Err(SuccessWithPendingStages(id)), head.state)
      else if !Verified(head.state) then Halt(Err(SuccessUnverified), head.state)
      else Halt(Ok(Succeeded), head.state.(currentStages := {}))
    case Scheduled(batch, None) =>
      assert [] + ids == ids;
      Go(batch)
  }

  /** Everything that happens before the first stage starts. No await point lies
      in between, so it is one step. */
  ghost function Begin(graph: WorkflowGraph, head: Head): Begun {
    match PlanFrontier(graph, head)
    case Halt(result, state) => Stop(result, state)
    case Go(batch) =>
      match AdmitAttempts(graph, Admitted([], head.state.attempts, head.transitions), batch)
      case Err(e) => Stop(Err(e), head.state)
      case Ok(a) =>
        match ReserveAll(head.ledger, a.tasks)
        case Err(e) => Stop(Err(BudgetRefused(e)), head.state)
        case Ok(ledger) => Started(a, ledger, head.state.(currentStages := head.frontier))
  }

  datatype ApplyFailure = ApplyFailure(error: Error, ledger: Ledger)

  function ApplyAll(graph: WorkflowGraph, d: Draft, tasks: seq<Task>, outcomes: seq<StageOutcome>): Result<Draft, ApplyFailure>
    requires |tasks| == |outcomes|
    decreases tasks
  {
    if tasks == [] then Ok(d)
    else
      match ApplyStage(graph, d, tasks[0], outcomes[0])
      case Err(e) => Err(ApplyFailure(e, d.ledger))
      case Ok(next) => ApplyAll(graph, next, tasks[1..], outcomes[1..])
  }

  function FirstDraft(state: RunState, attempts: map<StageId, nat>, ledger: Ledger): Draft {
    Draft(state.(budget := ledger.usage, attempts := attempts), ledger, {}, false, [])
  }

  function SealOf(d: Draft, sequence: nat): Checkpoint {
    Checkpoint(1, d.state.runId, d.state.candidateId, d.state, d.state.sourceTreeHash, d.frontier, d.patches, sequence)
  }

  function NextHead(d: Draft, sequence: nat, transitions: nat): Head {
    Head(d.state, d.ledger, d.frontier, sequence, transitions)
  }

  datatype Step =
    | Ended(result: Result<TerminalOutcome, Error>, state: RunState, ledger: Ledger)
    | Committed(head: Head, sealed: Option<Checkpoint>)

  /** All outcomes applied: seal if a stage demands it, and only then commit. */
  function Conclude(seals: Checkpoint -> bool, head: Head, state: RunState, a: Admitted, d: Draft): Step {
    if head.sequence + 1 > U64_MAX then Ended(Err(SequenceOverflow), state.(budget := d.ledger.usage), d.ledger)
    else if !d.seal then Committed(NextHead(d, head.sequence + 1, a.transitions), None)
    else if !seals(SealOf(d, head.sequence + 1)) then
      Ended(Err(CheckpointFailed), state.(budget := d.ledger.usage), d.ledger)
    else Committed(NextHead(d, head.sequence + 1, a.transitions), Some(SealOf(d, head.sequence + 1)))
  }

  /** Apply the outcomes of `tasks` to the draft, then conclude the frontier. */
  function Finish(graph: WorkflowGraph, seals: Checkpoint -> bool, head: Head, state: RunState, a: Admitted,
                  d: Draft, tasks: seq<Task>, outcomes: seq<StageOutcome>): Step
    requires |outcomes| == |tasks|
  {
    match ApplyAll(graph, d, tasks, outcomes)
    case Err(f) => Ended(Err(f.error), state.(budget := f.ledger.usage), f.ledger)
    case Ok(last) => Conclude(seals, head, state, a, last)
  }

  lemma {:induction false} RunStagesLength(driver: Driver, tasks: seq<Task>, snapshot: RunState, ledger: Ledger)
    ensures var r := RunStages(driver, tasks, snapshot, ledger); r.StagesOk? ==> |r.outcomes| == |tasks|
    decreases tasks
  {
    if tasks != [] {
      RunStagesLength(driver, tasks[1..], snapshot, ChargeCost(CommitOne(ledger, tasks[0]), driver.Reply(tasks[0], snapshot).cost));
    }
  }

  /** The step once the attempts are admitted. */
  function AdmittedStep(graph: WorkflowGraph, driver: Driver, head: Head, a: Admitted): Step {
    match ReserveAll(head.ledger, a.tasks)
    case Err(e) => Ended(Err(BudgetRefused(e)), head.state, head.ledger)
    case Ok(ledger) =>
      var state := head.state.(currentStages := head.frontier);
      RunStagesLength(driver, a.tasks, state, ledger);
      match RunStages(driver, a.tasks, state, ledger)
      case StagesErr(e, l) => Ended(Err(e), state.(budget := l.usage), l)
      case StagesOk(outcomes, l) =>
        Finish(graph, driver.seals, head, state, a, FirstDraft(state, a.attempts, l), a.tasks, outcomes)
  }

  /** One turn of the loop with a deterministic driver. */
  ghost function FrontierStep(graph: WorkflowGraph, driver: Driver, head: Head): Step {
    match PlanFrontier(graph, head)
    case Halt(result, state) => Ended(result, state, head.ledger)
    case Go(batch) =>
      match AdmitAttempts(graph, Admitted([], head.state.attempts, head.transitions), batch)
      case Err(e) => Ended(Err(e), head.state, head.ledger)
      case Ok(a) => AdmittedStep(graph, driver, head, a)
  }

  // ---- what every commit keeps ---------------------------------------------

  /** The invariant of the loop head. */
  ghost predicate HeadOk(graph: WorkflowGraph, head: Head) {
    && head.ledger.Sound()
    && head.ledger.usage.reserved == ZERO
    && head.state.budget == head.ledger.usage
    && head.frontier != {}
    && head.transitions == Total(head.state.attempts) <= Min(graph.limits.maximumTransitions, U32_MAX)
  }

  ghost predicate TaskFor(graph: WorkflowGraph, task: Task, id: StageId) {
    task.id == id && Runnable(graph, id) && task.definition == graph.stages[id]
  }

  /** The tasks cover the batch in order, one transition per stage, with every
      admission held and nothing spent. */
  ghost predicate Covers(graph: WorkflowGraph, head: Head, batch: seq<StageId>, a: Admitted, ledger: Ledger) {
    && |a.tasks| == |batch|
    && a.transitions == head.transitions + |batch|
    && a.transitions == Total(a.attempts) <= Min(graph.limits.maximumTransitions, U32_MAX)
    && (forall i | 0 <= i < |a.tasks| :: TaskFor(graph, a.tasks[i], batch[i]))
    && ledger.Sound() && Holds(ledger, a.tasks)
    && ledger.limits == head.ledger.limits && ledger.usage.consumed == head.ledger.usage.consumed
  }

  lemma AdmissionCovers(graph: WorkflowGraph, head: Head, batch: seq<StageId>, a: Admitted, ledger: Ledger)
    requires HeadOk(graph, head) && forall id | id in batch :: id in graph.stages && Runnable(graph, id)
    requires AdmitAttempts(graph, Admitted([], head.state.attempts, head.transitions), batch) == Ok(a)
    requires ReserveAll(head.ledger, a.tasks) == Ok(ledger)
    ensures Covers(graph, head, batch, a, ledger)
  {
    AdmitAttemptsCounts(graph, Admitted([], head.state.attempts, head.transitions), batch);
    ReserveAllSpec(head.ledger, a.tasks);
    forall i | 0 <= i < |a.tasks| ensures TaskFor(graph, a.tasks[i], batch[i]) {
      assert batch[i] in batch && a.tasks[i] == a.tasks[|Admitted([], head.state.attempts, head.transitions).tasks| + i];
    }
    HoldsAfterReserve(head.ledger, ledger, a.tasks);
  }

  lemma HoldsAfterReserve(before: Ledger, after: Ledger, tasks: seq<Task>)
    requires before.usage.reserved == ZERO
    requires forall k: BudgetKind :: after.usage.reserved.At(k) == before.usage.reserved.At(k) + SumBy(tasks, AdmissionFn(k))
    ensures Holds(after, tasks)
  {
    forall k: BudgetKind ensures after.usage.reserved.At(k) == SumBy(tasks, AdmissionFn(k)) {
      assert before.usage.reserved.At(k) == 0;
    }
  }

  /** A frontier that starts covers exactly the frontier. */
  lemma BeginSpec(graph: WorkflowGraph, head: Head)
    requires HeadOk(graph, head) && Begin(graph, head).Started?
    ensures var b := Begin(graph, head);
            && Covers(graph, head, Text.Sorted(head.frontier), b.admitted, b.ledger)
            && b.state == head.state.(currentStages := head.frontier)
  {
    var b := Begin(graph, head);
    AdmissionCovers(graph, head, PlanFrontier(graph, head).batch, b.admitted, b.ledger);
  }

  /** Fields that applying outcomes never touches. */
  ghost predicate SameRun(a: RunState, b: RunState) {
    && a.taskId == b.taskId && a.runId == b.runId && a.candidateId == b.candidateId
    && a.sourceTreeHash == b.sourceTreeHash && a.currentStages == b.currentStages && a.attempts == b.attempts
  }

  ghost predicate DraftOk(d: Draft, limits: Tally) {
    d.ledger.Sound() && d.ledger.limits == limits && d.ledger.usage.reserved == ZERO && d.state.budget == d.ledger.usage
  }

  lemma ApplyStageKeeps(graph: WorkflowGraph, d: Draft, task: Task, outcome: StageOutcome)
    requires DraftOk(d, d.ledger.limits) && ApplyStage(graph, d, task, outcome).Ok?
    ensures var n := ApplyStage(graph, d, task, outcome).value;
            && DraftOk(n, d.ledger.limits) && SameRun(d.state, n.state)
            && n.frontier != {}
            && (graph.Closed() && d.frontier <= graph.stages.Keys ==> n.frontier <= graph.stages.Keys)
            && (forall k: BudgetKind :: n.ledger.usage.consumed.At(k) == d.ledger.usage.consumed.At(k)
                  + if k.RepairIterations? then RepairsTaken(graph, d, task, outcome) else 0)
  {
    RepairChargeNeverRefused(graph, d, task, outcome);
    var eligible := Eligible(graph.edges, task, outcome.passed, d.ledger.Remaining(RepairIterations) > 0);
    var edges := Selected(graph, task, eligible).value;
    assert edges[0] in edges && edges[0].to in Targets(edges);
    assert forall e | e in edges :: e in eligible;
  }

  lemma {:induction false} ApplyAllKeeps(graph: WorkflowGraph, d: Draft, tasks: seq<Task>, outcomes: seq<StageOutcome>)
    requires |tasks| == |outcomes| && DraftOk(d, d.ledger.limits)
    ensures match ApplyAll(graph, d, tasks, outcomes)
            case Err(f) => f.ledger.Sound() && f.ledger.limits == d.ledger.limits && f.ledger.usage.reserved == ZERO
                           && Below(d.ledger.usage.consumed, f.ledger.usage.consumed)
            case Ok(n) =>
              && DraftOk(n, d.ledger.limits) && SameRun(d.state, n.state)
              && Below(d.ledger.usage.consumed, n.ledger.usage.consumed)
              && (tasks != [] ==> n.frontier != {})
              && (graph.Closed() && d.frontier <= graph.stages.Keys ==> n.frontier <= graph.stages.Keys)
    decreases tasks
  {
    if tasks != [] && ApplyStage(graph, d, tasks[0], outcomes[0]).Ok? {
      ApplyStageKeeps(graph, d, tasks[0], outcomes[0]);
      var next := ApplyStage(graph, d, tasks[0], outcomes[0]).value;
      ApplyAllKeeps(graph, next, tasks[1..], outcomes[1..]);
    }
  }

  /** Finishing a frontier whose stages all succeeded: whatever the outcomes, the
      ledger is settled, and a commit re-establishes the loop head. */
  lemma FinishKeeps(graph: WorkflowGraph, seals: Checkpoint -> bool, head: Head, state: RunState, a: Admitted,
                    outcomes: seq<StageOutcome>, ledger: Ledger)
    requires |outcomes| == |a.tasks| > 0
    requires ledger.Sound() && ledger.usage.reserved == ZERO
    requires a.transitions == Total(a.attempts) <= Min(graph.limits.maximumTransitions, U32_MAX)
    ensures match Finish(graph, seals, head, state, a, FirstDraft(state, a.attempts, ledger), a.tasks, outcomes)
            case Ended(result, s, l) =>
              && result.Err? && l.Sound() && l.limits == ledger.limits && l.usage.reserved == ZERO
              && s == state.(budget := l.usage) && Below(ledger.usage.consumed, l.usage.consumed)
            case Committed(h, sealed) =>
              && HeadOk(graph, h) && h.ledger.limits == ledger.limits
              && Below(ledger.usage.consumed, h.ledger.usage.consumed)
              && h.sequence == head.sequence + 1 && h.transitions == a.transitions
              && SameRun(h.state, state.(attempts := a.attempts))
              && (graph.Closed() ==> h.frontier <= graph.stages.Keys)
              && (sealed.Some? ==> SealsHead(sealed.value, h) && seals(sealed.value))
  {
    ApplyAllKeeps(graph, FirstDraft(state, a.attempts, ledger), a.tasks, outcomes);
  }

  /** The checkpoint is this loop head, ready to be resumed. */
  ghost predicate SealsHead(c: Checkpoint, h: Head) {
    && c.schemaVersion == 1 && c.runId == h.state.runId && c.candidateId == h.state.candidateId
    && c.state == h.state && c.workspaceTreeHash == h.state.sourceTreeHash
    && c.workflowPosition == h.frontier && c.createdAtSequence == h.sequence
  }

  /** What a step from a good loop head may do: an end leaves the caller's durable
      budget equal to the settled ledger; a commit re-establishes the loop head,
      advances the transition count and the sequence, and seals exactly the state
      it commits. No step forgets what was consumed. */
  ghost predicate StepOk(graph: WorkflowGraph, head: Head, step: Step) {
    match step
    case Ended(result, s, l) =>
      && l.Sound() && l.limits == head.ledger.limits && l.usage.reserved == ZERO && s.budget == l.usage
      && Below(head.ledger.usage.consumed, l.usage.consumed)
      && (result == Ok(Succeeded) ==> Verified(s))
    case Committed(h, sealed) =>
      && HeadOk(graph, h) && h.ledger.limits == head.ledger.limits
      && Below(head.ledger.usage.consumed, h.ledger.usage.consumed)
      && h.sequence == head.sequence + 1
      && h.transitions == head.transitions + |head.frontier| > head.transitions
      && h.state.runId == head.state.runId && h.state.candidateId == head.state.candidateId
      && (graph.Closed() ==> h.frontier <= graph.stages.Keys)
      && (sealed.Some? ==> SealsHead(sealed.value, h))
  }

  lemma AdmittedStepOk(graph: WorkflowGraph, driver: Driver, head: Head, a: Admitted, ledger: Ledger)
    requires HeadOk(graph, head) && ReserveAll(head.ledger, a.tasks) == Ok(ledger)
    requires Covers(graph, head, Text.Sorted(head.frontier), a, ledger)
    ensures StepOk(graph, head, AdmittedStep(graph, driver, head, a))
  {
    var state := head.state.(currentStages := head.frontier);
    RunStagesSpec(driver, a.tasks, state, ledger);
    var r := RunStages(driver, a.tasks, state, ledger);
    if r.StagesOk? {
      FinishKeeps(graph, driver.seals, head, state, a, r.outcomes, r.ledger);
    }
  }

  lemma {:induction false} FrontierStepOk(graph: WorkflowGraph, driver: Driver, head: Head)
    requires HeadOk(graph, head)
    ensures StepOk(graph, head, FrontierStep(graph, driver, head))
  {
    if Begin(graph, head).Started? {
      BeginSpec(graph, head);
      var b := Begin(graph, head);
      StartedSerially(graph, driver, head);
      AdmittedStepOk(graph, driver, head, b.admitted, b.ledger);
    } else {
      StoppedSerially(graph, driver, head);
      StoppedOk(graph, head);
    }
  }

  lemma StartedSerially(graph: WorkflowGraph, driver: Driver, h: Head)
    requires Begin(graph, h).Started?
    ensures var b := Begin(graph, h);
            FrontierStep(graph, driver, h) == AdmittedStep(graph, driver, h, b.admitted) && ReserveAll(h.ledger, b.admitted.tasks) == Ok(b.ledger)
  {
  }

  /** A frontier that does not start ends as it was decided before any stage. */
  lemma StoppedSerially(graph: WorkflowGraph, driver: Driver, h: Head)
    requires Begin(graph, h).Stop?
    ensures FrontierStep(graph, driver, h) == Ended(Begin(graph, h).result, Begin(graph, h).state, h.ledger)
  {
  }

  lemma StoppedOk(graph: WorkflowGraph, head: Head)
    requires HeadOk(graph, head) && Begin(graph, head).Stop?
    ensures StepOk(graph, head, Ended(Begin(graph, head).result, Begin(graph, head).state, head.ledger))
  {
    var plan := PlanFrontier(graph, head);
    if plan.Halt? {
      assert Begin(graph, head) == Stop(plan.result, plan.state);
    } else {
      assert Begin(graph, head).state == head.state && Begin(graph, head).result.Err?;
    }
  }
}
