/** The workflow graph, the durable run state, and the pure decisions of the
executor: frontier classification, attempt admission, transition selection and
outcome application. */
module Workflow {
  import opened Common
  import opened Budget
  import Text

  // ---- graph ---------------------------------------------------------------

  type StageId = string

  datatype StageKind =
    | DeterministicTransform | ModelInvocation | ToolInvocation | ParallelFanOut | Aggregation
    | PolicyGate | VerificationGate | HumanApprovalGate | TerminalSuccess | TerminalFailure

  datatype StageDefinition = StageDefinition(
    kind: StageKind, modelRole: Option<string>, tool: Option<string>, iterationLimit: Option<nat>, trusted: bool)

  datatype TransitionCondition = Always | StagePassed | StageFailed | BudgetRemaining | HumanApproved

  datatype TransitionRule = TransitionRule(from: StageId, to: StageId, condition: TransitionCondition, priority: nat)

  datatype WorkflowLimits = WorkflowLimits(
    maximumTransitions: nat, maximumParallelism: nat, maximumConcurrency: Option<nat>)
  {
    function EffectiveConcurrency(): (w: nat)
      ensures w >= 1
    {
      Max(if maximumConcurrency.Some? then maximumConcurrency.value else maximumParallelism, 1)
    }
  }

  datatype WorkflowGraph = WorkflowGraph(
    entry: StageId, stages: map<StageId, StageDefinition>, edges: seq<TransitionRule>, limits: WorkflowLimits)
  {
    /** Part of `WorkflowGraph::validate`: every edge ends at a known stage. */
    ghost predicate Closed() {
      entry in stages && forall e | e in edges :: e.from in stages && e.to in stages
    }
  }

  // ---- durable state -------------------------------------------------------

  datatype ArtifactRef = ArtifactRef(hash: string, sizeBytes: nat, mediaType: string)

  datatype CheckStatus = Passed | Failed | InfrastructureError | SkippedByPolicy

  datatype VerificationReport = VerificationReport(
    runId: string, candidateId: string, checks: seq<CheckStatus>, passed: bool,
    policyViolations: seq<string>, supervisorAttestation: Option<string>)
  {
    predicate SupervisorValid() {
      && supervisorAttestation.Some? && supervisorAttestation.value != ""
      && passed == ((forall i | 0 <= i < |checks| :: checks[i] == Passed) && policyViolations == [])
    }
  }

  datatype FailureDomain = Candidate | ModelProvider | Tool | Repository | BuildEnvironment | Evaluator | Policy
    | BudgetDomain | WorkerInfrastructure | Backend

  datatype FailureEvidence = FailureEvidence(
    domain: FailureDomain, subcategory: string, retryable: bool, stage: StageId, countsAgainstCandidate: bool)
  {
    predicate Admissible() {
      domain in {ModelProvider, BuildEnvironment, Evaluator, WorkerInfrastructure, Backend} ==> !countsAgainstCandidate
    }
  }

  datatype EngineeringPlan = EngineeringPlan(objective: string, revision: nat, revisionReason: Option<string>)

  datatype RunState = RunState(
    taskId: string, runId: string, candidateId: string, sourceTreeHash: string,
    currentStages: set<StageId>, attempts: map<StageId, nat>, plan: Option<EngineeringPlan>,
    patches: seq<ArtifactRef>, verification: seq<VerificationReport>, budget: BudgetUsage,
    failureEvidence: seq<FailureEvidence>)

  datatype Checkpoint = Checkpoint(
    schemaVersion: nat, runId: string, candidateId: string, state: RunState, workspaceTreeHash: string,
    workflowPosition: set<StageId>, responseArtifacts: seq<ArtifactRef>, createdAtSequence: nat)
  {
    /** What `canonical_hash` checks before it hashes. */
    predicate IdentityCoherent() { runId == state.runId && candidateId == state.candidateId }
  }

  datatype StageOutcome = StageOutcome(
    passed: bool, plan: Option<EngineeringPlan>, patches: seq<ArtifactRef>,
    failures: seq<FailureEvidence>, verification: Option<VerificationReport>)

  datatype TerminalOutcome = Succeeded | RunFailed

  datatype Error =
    | TransitionCountOverflow | TransitionCountExceedsLimit | MissingStage(id: StageId)
    | SuccessWithPendingStages(id: StageId) | SuccessUnverified
    | TransitionBudgetExhausted | IterationLimitExhausted(id: StageId) | AttemptOverflow
    | BudgetRefused(budget: BudgetError) | StageError(message: string)
    | InadmissibleFailure | PlanRevisionStale | PlanReasonMissing | PatchBeforePlan
    | UntrustedVerification | InvalidReport | ReportIdentityMismatch | ReportOmitted(id: StageId)
    | NoEligibleTransition(id: StageId) | FanOutBudgetEdge | ParallelismExceeded
    | SequenceOverflow | CheckpointFailed | EndedWithoutTerminal
    | UnsupportedSchema | IncoherentCheckpoint | ForeignCheckpoint | EmptyPosition
    | UnknownPosition | UnsettledCaller

  /** One scheduled attempt of a stage. */
  datatype Task = Task(id: StageId, definition: StageDefinition, attempt: nat) {
    /** The call budget that admission charges for this stage. */
    function Admission(): Option<BudgetKind> {
      match definition.kind
      case ToolInvocation => Some(ToolCalls)
      case ModelInvocation => Some(ModelCalls)
      case _ => None
    }

    function AdmissionFor(k: BudgetKind): nat {
      if Admission() == Some(k) then 1 else 0
    }
  }

  // ---- frontier classification ---------------------------------------------

  datatype Classified =
    | Unknown(id: StageId)
    | FailureReached
    | Scheduled(batch: seq<StageId>, success: Option<StageId>)

  /** Scans the frontier in order; a failure stage ends the scan at once. */
  function Classify(graph: WorkflowGraph, ids: seq<StageId>, batch: seq<StageId>, success: Option<StageId>): Classified {
    if ids == [] then Scheduled(batch, success)
    else if ids[0] !in graph.stages then Unknown(ids[0])
    else match graph.stages[ids[0]].kind
      case TerminalFailure => FailureReached
      case TerminalSuccess => Classify(graph, ids[1..], batch, Some(ids[0]))
      case _ => Classify(graph, ids[1..], batch + [ids[0]], success)
  }

  predicate IsTerminal(kind: StageKind) { kind.TerminalSuccess? || kind.TerminalFailure? }

  ghost predicate Runnable(graph: WorkflowGraph, id: StageId) {
    id in graph.stages && !IsTerminal(graph.stages[id].kind)
  }

  /** A scheduled frontier has no failure stage, and without a success stage the
      batch is the whole frontier in order. */
  lemma {:induction false} ClassifyScheduled(graph: WorkflowGraph, ids: seq<StageId>, batch: seq<StageId>, success: Option<StageId>)
    requires forall id | id in batch :: Runnable(graph, id)
    ensures var c := Classify(graph, ids, batch, success);
            c.Scheduled? ==>
              && (forall id | id in c.batch :: Runnable(graph, id))
              && (forall id | id in ids :: id in graph.stages && !graph.stages[id].kind.TerminalFailure?)
              && (c.success.None? ==> c.batch == batch + ids && success.None?)
              && (c.success.None? || c.success == success
                    || (c.success.value in ids && graph.stages[c.success.value].kind.TerminalSuccess?))
  {
    if ids != [] && ids[0] in graph.stages && !graph.stages[ids[0]].kind.TerminalFailure? {
      if graph.stages[ids[0]].kind.TerminalSuccess? {
        ClassifyScheduled(graph, ids[1..], batch, Some(ids[0]));
      } else {
        ClassifyScheduled(graph, ids[1..], batch + [ids[0]], success);
        assert batch + [ids[0]] + ids[1..] == batch + ids;
      }
    }
  }

  /** On a frontier of known stages, one failure stage decides the run,
      whatever success stages share the frontier. */
  lemma {:induction false} FailureAlwaysWins(graph: WorkflowGraph, ids: seq<StageId>, batch: seq<StageId>, success: Option<StageId>)
    requires forall id | id in ids :: id in graph.stages
    ensures Classify(graph, ids, batch, success).FailureReached?
            <==> exists id :: id in ids && graph.stages[id].kind.TerminalFailure?
  {
    if ids != [] {
      var rest := ids[1..];
      assert forall id :: id in ids <==> id == ids[0] || id in rest;
      FailureAlwaysWins(graph, rest, batch, Some(ids[0]));
      FailureAlwaysWins(graph, rest, batch + [ids[0]], success);
    }
  }

  // ---- attempt admission ---------------------------------------------------

  function Count(attempts: map<StageId, nat>, id: StageId): nat {
    if id in attempts then attempts[id] else 0
  }

  datatype Admitted = Admitted(tasks: seq<Task>, attempts: map<StageId, nat>, transitions: nat)

  function AdmitAttempt(graph: WorkflowGraph, a: Admitted, id: StageId): (r: Result<Admitted, Error>)
    requires id in graph.stages
  {
    var definition := graph.stages[id];
    var attempt := Count(a.attempts, id) + 1;
    if a.transitions + 1 > U32_MAX then Err(TransitionCountOverflow)
    else if a.transitions + 1 > graph.limits.maximumTransitions then Err(TransitionBudgetExhausted)
    else if attempt > U32_MAX then Err(AttemptOverflow)
    else if definition.iterationLimit.Some? && attempt > definition.iterationLimit.value then Err(IterationLimitExhausted(id))
    else Ok(Admitted(a.tasks + [Task(id, definition, attempt)], a.attempts[id := attempt], a.transitions + 1))
  }

  function AdmitAttempts(graph: WorkflowGraph, a: Admitted, batch: seq<StageId>): Result<Admitted, Error>
    requires forall id | id in batch :: id in graph.stages
    decreases batch
  {
    if batch == [] then Ok(a)
    else
      match AdmitAttempt(graph, a, batch[0])
      case Err(e) => Err(e)
      case Ok(b) => AdmitAttempts(graph, b, batch[1..])
  }

  /** Admission counts one transition per stage and stays within the limit; the
      attempt counters keep summing to the transition count. */
  lemma {:induction false} AdmitAttemptsCounts(graph: WorkflowGraph, a: Admitted, batch: seq<StageId>)
    requires forall id | id in batch :: id in graph.stages
    requires AdmitAttempts(graph, a, batch).Ok?
    requires a.transitions <= graph.limits.maximumTransitions
    ensures var b := AdmitAttempts(graph, a, batch).value;
            && b.transitions == a.transitions + |batch| <= graph.limits.maximumTransitions
            && (a.transitions <= U32_MAX ==> b.transitions <= U32_MAX)
            && a.tasks <= b.tasks && |b.tasks| == |a.tasks| + |batch|
            && (forall i | 0 <= i < |batch| :: b.tasks[|a.tasks| + i].id == batch[i]
                                               && b.tasks[|a.tasks| + i].definition == graph.stages[batch[i]])
            && (Total(a.attempts) == a.transitions ==> Total(b.attempts) == b.transitions)
    decreases batch
  {
    if batch != [] {
      var next := AdmitAttempt(graph, a, batch[0]).value;
      TotalUpdate(a.attempts, batch[0], Count(a.attempts, batch[0]) + 1);
      AdmitAttemptsCounts(graph, next, batch[1..]);
    }
  }

  // ---- transition selection ------------------------------------------------

  function ConditionMatches(condition: TransitionCondition, kind: StageKind, passed: bool, repairRemaining: bool): bool {
    match condition
    case Always => true
    case BudgetRemaining => repairRemaining
    case StagePassed => passed
    case StageFailed => !passed
    case HumanApproved => kind.HumanApprovalGate? && passed
  }

  /** The edges that may be taken, in declaration order. */
  function Eligible(edges: seq<TransitionRule>, task: Task, passed: bool, repairRemaining: bool): (r: seq<TransitionRule>)
    ensures forall e :: e in r <==> e in edges && e.from == task.id
                                    && ConditionMatches(e.condition, task.definition.kind, passed, repairRemaining)
  {
    if edges == [] then []
    else
      var rest := Eligible(edges[1..], task, passed, repairRemaining);
      var e := edges[0];
      if e.from == task.id && ConditionMatches(e.condition, task.definition.kind, passed, repairRemaining)
      then [e] + rest else rest
  }

  /** The head of a stable sort by priority: the earliest edge of least priority. */
  function Preferred(edges: seq<TransitionRule>): (i: nat)
    requires edges != []
    ensures i < |edges|
    ensures forall j | 0 <= j < i :: edges[i].priority < edges[j].priority
    ensures forall j | i <= j < |edges| :: edges[i].priority <= edges[j].priority
  {
    var last := |edges| - 1;
    if last == 0 then 0
    else
      var i := Preferred(edges[..last]);
      if edges[last].priority < edges[i].priority then last else i
  }

  function IsRepair(e: TransitionRule): bool { e.condition.BudgetRemaining? }

  function Selected(graph: WorkflowGraph, task: Task, eligible: seq<TransitionRule>): Result<seq<TransitionRule>, Error> {
    if eligible == [] then Err(NoEligibleTransition(task.id))
    else if task.definition.kind.ParallelFanOut? then
      if exists e :: e in eligible && IsRepair(e) then Err(FanOutBudgetEdge)
      else if |eligible| > graph.limits.maximumParallelism then Err(ParallelismExceeded)
      else Ok(eligible)
    else Ok([eligible[Preferred(eligible)]])
  }

  function RepairCount(edges: seq<TransitionRule>): nat {
    if edges == [] then 0 else (if IsRepair(edges[0]) then 1 else 0) + RepairCount(edges[1..])
  }

  function Targets(edges: seq<TransitionRule>): set<StageId> {
    set e | e in edges :: e.to
  }

  // ---- outcome application -------------------------------------------------

  function AdoptPlan(previous: Option<EngineeringPlan>, proposed: Option<EngineeringPlan>): Result<Option<EngineeringPlan>, Error> {
    if proposed.None? then Ok(previous)
    else if previous.None? then Ok(proposed)
    else if proposed.value.revision <= previous.value.revision then Err(PlanRevisionStale)
    else if proposed.value.revisionReason.None? || Text.Trim(proposed.value.revisionReason.value) == "" then Err(PlanReasonMissing)
    else Ok(proposed)
  }

  function AdoptReport(state: RunState, task: Task, report: Option<VerificationReport>): Result<seq<VerificationReport>, Error> {
    if report.Some? then
      if !(task.definition.kind.VerificationGate? && task.definition.trusted) then Err(UntrustedVerification)
      else if !report.value.SupervisorValid() then Err(InvalidReport)
      else if report.value.runId != state.runId || report.value.candidateId != state.candidateId then Err(ReportIdentityMismatch)
      else Ok(state.verification + [report.value])
    else if task.definition.kind.VerificationGate? then Err(ReportOmitted(task.id))
    else Ok(state.verification)
  }

  /** `apply_outcome`: all of an outcome, or nothing. */
  function ApplyOutcome(state: RunState, task: Task, outcome: StageOutcome, usage: BudgetUsage): Result<RunState, Error> {
    if exists i | 0 <= i < |outcome.failures| :: !outcome.failures[i].Admissible() then Err(InadmissibleFailure)
    else
      match AdoptPlan(state.plan, outcome.plan)
      case Err(e) => Err(e)
      case Ok(plan) =>
        if outcome.patches != [] && plan.None? then Err(PatchBeforePlan)
        else
          match AdoptReport(state, task, outcome.verification)
          case Err(e) => Err(e)
          case Ok(verification) =>
            Ok(state.(failureEvidence := state.failureEvidence + outcome.failures, plan := plan,
                      patches := state.patches + outcome.patches, verification := verification, budget := usage))
  }

  predicate RequiresCheckpoint(task: Task, outcome: StageOutcome) {
    || task.id in {"explore_repository", "diagnose", "plan", "repair"}
    || outcome.patches != []
    || task.definition.kind.VerificationGate?
  }

  /** The working copy while the outcomes of one frontier are applied. */
  datatype Draft = Draft(
    state: RunState, ledger: Ledger, frontier: set<StageId>, seal: bool, patches: seq<ArtifactRef>)

  /** Applies one outcome, selects the transitions of its stage and charges the
      repair budget for them. */
  function ApplyStage(graph: WorkflowGraph, d: Draft, task: Task, outcome: StageOutcome): Result<Draft, Error> {
    match ApplyOutcome(d.state, task, outcome, d.ledger.usage)
    case Err(e) => Err(e)
    case Ok(state) =>
      match Selected(graph, task, Eligible(graph.edges, task, outcome.passed, d.ledger.Remaining(RepairIterations) > 0))
      case Err(e) => Err(e)
      case Ok(edges) =>
        match d.ledger.Consume(RepairIterations, RepairCount(edges))
        case Err(e) => Err(BudgetRefused(e))
        case Ok(ledger) =>
          Ok(Draft(state.(budget := ledger.usage), ledger, d.frontier + Targets(edges),
                   d.seal || RequiresCheckpoint(task, outcome), d.patches + outcome.patches))
  }

  /** How many repair edges `ApplyStage` takes for this outcome. */
  function RepairsTaken(graph: WorkflowGraph, d: Draft, task: Task, outcome: StageOutcome): nat {
    match Selected(graph, task, Eligible(graph.edges, task, outcome.passed, d.ledger.Remaining(RepairIterations) > 0))
    case Err(_) => 0
    case Ok(edges) => RepairCount(edges)
  }

  /** A stage takes at most one repair edge, and takes it only while the repair
      budget has room, so charging for it cannot fail. */
  lemma RepairChargeNeverRefused(graph: WorkflowGraph, d: Draft, task: Task, outcome: StageOutcome)
    ensures RepairsTaken(graph, d, task, outcome) <= Min(1, d.ledger.Remaining(RepairIterations))
    ensures d.ledger.Consume(RepairIterations, RepairsTaken(graph, d, task, outcome)).Ok?
  {
    var eligible := Eligible(graph.edges, task, outcome.passed, d.ledger.Remaining(RepairIterations) > 0);
    var selected := Selected(graph, task, eligible);
    if selected.Ok? {
      if task.definition.kind.ParallelFanOut? {
        NoRepairs(selected.value);
      } else {
        assert selected.value == [eligible[Preferred(eligible)]];
        assert RepairCount(selected.value[1..]) == 0;
      }
    }
  }

  lemma {:induction false} NoRepairs(edges: seq<TransitionRule>)
    requires forall e | e in edges :: !IsRepair(e)
    ensures RepairCount(edges) == 0
  {
    if edges != [] {
      NoRepairs(edges[1..]);
    }
  }
}
