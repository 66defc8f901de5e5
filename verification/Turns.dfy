/** One turn of the loop, told on its inputs: when a frontier starts or ends the run, how far
its stages get, and exactly when the turn commits and to what. */
module Turns {
  import opened Common
  import opened Budget
  import opened Workflow
  import opened Serial
  import opened Transitions
  import opened Frontiers
  import Refinement
  import Schedules
  import Text

  // ---- what starts a frontier ----------------------------------------------

  ghost predicate Known(graph: WorkflowGraph, id: StageId) { id in graph.stages && graph.stages[id].kind != TerminalFailure }

  ghost predicate Success(graph: WorkflowGraph, id: StageId) { id in graph.stages && graph.stages[id].kind == TerminalSuccess }

  /** All stages before the `i`th are known and none of them fails the run. */
  ghost predicate KnownBefore(graph: WorkflowGraph, ids: seq<StageId>, i: nat)
    requires i <= |ids|
  {
    forall k | 0 <= k < i :: Known(graph, ids[k])
  }

  /** The scan of a frontier ends at the first unknown or failing stage. */
  lemma {:induction false} ScanStops(graph: WorkflowGraph, ids: seq<StageId>, batch: seq<StageId>, success: Option<StageId>)
    ensures match Classify(graph, ids, batch, success)
            case Unknown(id) => exists i: nat :: i < |ids| && KnownBefore(graph, ids, i) && ids[i] == id && id !in graph.stages
            case FailureReached =>
              exists i: nat :: i < |ids| && KnownBefore(graph, ids, i) && ids[i] in graph.stages && graph.stages[ids[i]].kind == TerminalFailure
            case Scheduled(_, _) => KnownBefore(graph, ids, |ids|)
  {
    if ids != [] && Known(graph, ids[0]) {
      var rest := ids[1..];
      var more := if Success(graph, ids[0]) then batch else batch + [ids[0]];
      var last := if Success(graph, ids[0]) then Some(ids[0]) else success;
      ScanStops(graph, rest, more, last);
      var c := Classify(graph, rest, more, last);
      assert Classify(graph, ids, batch, success) == c;
      if !c.Scheduled? {
        var i: nat :| i < |rest| && KnownBefore(graph, rest, i) && (c.Unknown? ==> rest[i] == c.id && c.id !in graph.stages)
                      && (c.FailureReached? ==> rest[i] in graph.stages && graph.stages[rest[i]].kind == TerminalFailure);
        assert rest[i] == ids[i + 1];
        assert KnownBefore(graph, ids, i + 1);
      }
    } else if ids != [] {
      assert KnownBefore(graph, ids, 0);
    }
  }

  /** A scheduled frontier reports its last success stage, and schedules all but the
      success stages. */
  lemma {:induction false} ScanSchedules(graph: WorkflowGraph, ids: seq<StageId>, batch: seq<StageId>, success: Option<StageId>)
    requires Classify(graph, ids, batch, success).Scheduled?
    ensures var c := Classify(graph, ids, batch, success);
            && |c.batch| >= |batch| && (|c.batch| == |batch| <==> forall i | 0 <= i < |ids| :: Success(graph, ids[i]))
            && ((forall i | 0 <= i < |ids| :: !Success(graph, ids[i])) ==> c.success == success)
            && forall i | 0 <= i < |ids| && Success(graph, ids[i]) && (forall k | i < k < |ids| :: !Success(graph, ids[k])) :: c.success == Some(ids[i])
  {
    if ids != [] {
      var rest := ids[1..];
      assert forall i | 0 < i < |ids| :: ids[i] == rest[i - 1];
      if Success(graph, ids[0]) {
        ScanSchedules(graph, rest, batch, Some(ids[0]));
      } else {
        ScanSchedules(graph, rest, batch + [ids[0]], success);
      }
    }
  }

  /** The last report passed: it is attested, every check passed and no policy was
      violated. */
  predicate LastPassed(reports: seq<VerificationReport>) {
    && reports != []
    && var report := reports[|reports| - 1];
    && report.passed && report.supervisorAttestation.Some? && report.supervisorAttestation.value != ""
    && report.policyViolations == [] && forall i | 0 <= i < |report.checks| :: report.checks[i] == Passed
  }

  lemma VerifiedIff(state: RunState)
    ensures Verified(state) <==> LastPassed(state.verification)
  {
  }

  /** Why a frontier ends the run, told on its stages in order. */
  ghost predicate Ends(graph: WorkflowGraph, ids: seq<StageId>, reports: seq<VerificationReport>, result: Result<TerminalOutcome, Error>) {
    match result
    case Ok(RunFailed) =>
      exists i: nat :: i < |ids| && KnownBefore(graph, ids, i) && ids[i] in graph.stages && graph.stages[ids[i]].kind == TerminalFailure
    case Ok(Succeeded) => ids != [] && (forall i | 0 <= i < |ids| :: Success(graph, ids[i])) && LastPassed(reports)
    case Err(SuccessUnverified) => ids != [] && (forall i | 0 <= i < |ids| :: Success(graph, ids[i])) && !LastPassed(reports)
    case Err(MissingStage(id)) => exists i: nat :: i < |ids| && KnownBefore(graph, ids, i) && ids[i] == id && ids[i] !in graph.stages
    case Err(SuccessWithPendingStages(id)) =>
      && KnownBefore(graph, ids, |ids|) && (exists i | 0 <= i < |ids| :: !Success(graph, ids[i]))
      && exists i | 0 <= i < |ids| :: ids[i] == id && Success(graph, ids[i]) && forall k | i < k < |ids| :: !Success(graph, ids[k])
    case Err(_) => false
  }

  /** A frontier is scheduled exactly if its stages are known and none is terminal. */
  ghost predicate Schedulable(graph: WorkflowGraph, ids: seq<StageId>) {
    KnownBefore(graph, ids, |ids|) && forall i | 0 <= i < |ids| :: !Success(graph, ids[i])
  }

  lemma {:induction false} LastSuccess(graph: WorkflowGraph, ids: seq<StageId>) returns (i: nat)
    requires exists k | 0 <= k < |ids| :: Success(graph, ids[k])
    ensures i < |ids| && Success(graph, ids[i]) && forall k | i < k < |ids| :: !Success(graph, ids[k])
  {
    i := |ids| - 1;
    while !Success(graph, ids[i])
      invariant 0 <= i < |ids| && forall k | i < k < |ids| :: !Success(graph, ids[k])
      decreases i
    {
      i := i - 1;
    }
  }

  lemma SchedulesFor(graph: WorkflowGraph, ids: seq<StageId>, reports: seq<VerificationReport>)
    requires Classify(graph, ids, [], None).Scheduled?
    ensures var c := Classify(graph, ids, [], None);
            if c.success.None? then Schedulable(graph, ids)
            else if c.batch != [] then Ends(graph, ids, reports, Err(SuccessWithPendingStages(c.success.value)))
            else ids != [] && forall i | 0 <= i < |ids| :: Success(graph, ids[i])
  {
    ScanStops(graph, ids, [], None);
    ScanSchedules(graph, ids, [], None);
    if exists k | 0 <= k < |ids| :: Success(graph, ids[k]) {
      var i := LastSuccess(graph, ids);
    }
  }

  lemma StopsFor(graph: WorkflowGraph, ids: seq<StageId>, reports: seq<VerificationReport>)
    ensures var c := Classify(graph, ids, [], None);
            && (c.Unknown? ==> Ends(graph, ids, reports, Err(MissingStage(c.id))))
            && (c.FailureReached? ==> Ends(graph, ids, reports, Ok(RunFailed)))
  {
    ScanStops(graph, ids, [], None);
  }

  /** The decision of a frontier: it holds for the reason it gives. */
  lemma DecidedFor(graph: WorkflowGraph, head: Head)
    ensures match PlanFrontier(graph, head)
            case Go(_) => Schedulable(graph, Text.Sorted(head.frontier))
            case Halt(result, _) => Ends(graph, Text.Sorted(head.frontier), head.state.verification, result)
  {
    var ids := Text.Sorted(head.frontier);
    StopsFor(graph, ids, head.state.verification);
    VerifiedIff(head.state);
    if Classify(graph, ids, [], None).Scheduled? {
      SchedulesFor(graph, ids, head.state.verification);
    }
  }

  /** No two reasons hold at once. */
  lemma OneReason(graph: WorkflowGraph, ids: seq<StageId>, reports: seq<VerificationReport>,
                  a: Result<TerminalOutcome, Error>, b: Result<TerminalOutcome, Error>)
    requires Ends(graph, ids, reports, a)
    ensures !Schedulable(graph, ids)
    ensures Ends(graph, ids, reports, b) ==> a == b
  {
    assert ids != [] && Success(graph, ids[0]) ==> !Schedulable(graph, ids);
  }

  /** A frontier is scheduled if and only if all of it can run, and ends the run with a
      result if and only if the reason for that result holds. */
  lemma DecidedIff(graph: WorkflowGraph, head: Head, result: Result<TerminalOutcome, Error>)
    ensures PlanFrontier(graph, head).Go? <==> Schedulable(graph, Text.Sorted(head.frontier))
    ensures (PlanFrontier(graph, head).Halt? && PlanFrontier(graph, head).result == result)
            <==> Ends(graph, Text.Sorted(head.frontier), head.state.verification, result)
  {
    var ids := Text.Sorted(head.frontier);
    DecidedFor(graph, head);
    if PlanFrontier(graph, head).Halt? {
      OneReason(graph, ids, head.state.verification, PlanFrontier(graph, head).result, result);
    }
    if Ends(graph, ids, head.state.verification, result) {
      OneReason(graph, ids, head.state.verification, result, result);
    }
  }

  // ---- admission of the attempts -------------------------------------------

  /** Another attempt of the stage is within its iteration limit. */
  predicate MayRetry(graph: WorkflowGraph, attempts: map<StageId, nat>, id: StageId) {
    && (id in attempts ==> attempts[id] < U32_MAX)
    && (id in graph.stages && graph.stages[id].iterationLimit.Some? ==>
          if id in attempts then attempts[id] < graph.stages[id].iterationLimit.value else 0 < graph.stages[id].iterationLimit.value)
  }

  ghost predicate Distinct(batch: seq<StageId>) { forall i, k | 0 <= i < k < |batch| :: batch[i] != batch[k] }

  function OneMoreAttempt(attempts: map<StageId, nat>, id: StageId): nat { if id in attempts then attempts[id] + 1 else 1 }

  /** The attempts of distinct stages are admitted exactly if all their transitions fit the
      limit of the graph and each stage may retry; each is then one attempt further. */
  lemma {:induction false} AdmittedIff(graph: WorkflowGraph, a: Admitted, batch: seq<StageId>)
    requires Distinct(batch) && forall id | id in batch :: id in graph.stages
    ensures AdmitAttempts(graph, a, batch).Ok?
            <==> && (batch != [] ==> a.transitions + |batch| <= Min(graph.limits.maximumTransitions, U32_MAX))
                 && forall i | 0 <= i < |batch| :: MayRetry(graph, a.attempts, batch[i])
    decreases batch
  {
    if batch != [] {
      var r := AdmitAttempt(graph, a, batch[0]);
      var rest := batch[1..];
      assert forall i | 0 < i < |batch| :: batch[i] == rest[i - 1];
      if r.Ok? {
        AdmittedIff(graph, r.value, rest);
        assert forall i | 0 <= i < |rest| :: MayRetry(graph, a.attempts, rest[i]) <==> MayRetry(graph, r.value.attempts, rest[i]);
      }
    }
  }

  lemma {:induction false} AttemptsMade(graph: WorkflowGraph, a: Admitted, batch: seq<StageId>)
    requires Distinct(batch) && forall id | id in batch :: id in graph.stages
    requires AdmitAttempts(graph, a, batch).Ok?
    ensures var b := AdmitAttempts(graph, a, batch).value;
            && b.transitions == a.transitions + |batch|
            && (forall id :: id in b.attempts <==> id in a.attempts || id in batch)
            && (forall id | id in b.attempts :: b.attempts[id] == if id in batch then OneMoreAttempt(a.attempts, id) else a.attempts[id])
    decreases batch
  {
    if batch != [] {
      var r := AdmitAttempt(graph, a, batch[0]);
      var rest := batch[1..];
      assert forall id :: id in batch <==> id == batch[0] || id in rest;
      assert batch[0] !in rest;
      AttemptsMade(graph, r.value, rest);
    }
  }

  lemma {:induction false} TasksMade(graph: WorkflowGraph, a: Admitted, batch: seq<StageId>)
    requires Distinct(batch) && forall id | id in batch :: id in graph.stages
    requires AdmitAttempts(graph, a, batch).Ok?
    ensures var b := AdmitAttempts(graph, a, batch).value;
            && a.tasks <= b.tasks && |b.tasks| == |a.tasks| + |batch|
            && forall i | 0 <= i < |batch| ::
                 b.tasks[|a.tasks| + i] == Task(batch[i], graph.stages[batch[i]], OneMoreAttempt(a.attempts, batch[i]))
    decreases batch
  {
    if batch != [] {
      var r := AdmitAttempt(graph, a, batch[0]);
      var rest := batch[1..];
      TasksMade(graph, r.value, rest);
      forall i | 0 <= i < |batch|
        ensures AdmitAttempts(graph, a, batch).value.tasks[|a.tasks| + i]
                == Task(batch[i], graph.stages[batch[i]], OneMoreAttempt(a.attempts, batch[i]))
      {
        if i > 0 {
          assert batch[i] == rest[i - 1] && |a.tasks| + i == |r.value.tasks| + (i - 1);
        }
      }
    }
  }

  // ---- a committed turn ----------------------------------------------------

  /** All stages answer, and their admissions and charges together fit the limits. */
  ghost predicate AllReturn(driver: Driver, tasks: seq<Task>, snapshot: RunState, ledger: Ledger) {
    && (forall i | 0 <= i < |tasks| :: driver.Reply(tasks[i], snapshot).result.Ok?)
    && forall k: BudgetKind :: ledger.usage.consumed.At(k) + SumBy(tasks, SpendFn(driver, snapshot, k)) <= ledger.limits.At(k)
  }

  /** The stages of a frontier all return exactly if all answer and everything together
      fits. */
  lemma StagesReturnIff(driver: Driver, tasks: seq<Task>, snapshot: RunState, ledger: Ledger)
    requires ledger.Sound() && Holds(ledger, tasks)
    ensures RunStages(driver, tasks, snapshot, ledger).StagesOk? <==> AllReturn(driver, tasks, snapshot, ledger)
  {
    RunStagesSpec(driver, tasks, snapshot, ledger);
    var r := RunStages(driver, tasks, snapshot, ledger);
    if r.StagesOk? {
      assert forall k: BudgetKind :: r.ledger.usage.consumed.At(k) + r.ledger.usage.reserved.At(k) <= r.ledger.limits.At(k);
    }
    if AllReturn(driver, tasks, snapshot, ledger) {
      Refinement.SerialSucceeds(driver, tasks, snapshot, ledger);
    }
  }

  /** The first `j` stages all return; the `j`th answers with an error, or its charges do
      not fit what is left beside the admissions of the stages after it. */
  ghost predicate FailsAt(driver: Driver, tasks: seq<Task>, snapshot: RunState, ledger: Ledger, j: nat) {
    && j < |tasks| && (forall i | 0 <= i < j :: driver.Reply(tasks[i], snapshot).result.Ok?)
    && (driver.Reply(tasks[j], snapshot).result.Err? || !CostFits(driver, tasks, snapshot, ledger, j))
    && forall i | 0 <= i < j :: CostFits(driver, tasks, snapshot, ledger, i)
  }

  /** The charges of the `j`th stage fit beside all that was charged before, its own
      admission and the admissions of the stages after it. */
  ghost predicate CostFits(driver: Driver, tasks: seq<Task>, snapshot: RunState, ledger: Ledger, j: nat)
    requires j < |tasks|
  {
    forall k: BudgetKind ::
      ledger.usage.consumed.At(k) + SumBy(tasks[..j], SpendFn(driver, snapshot, k)) + driver.Reply(tasks[j], snapshot).cost.At(k)
      + SumBy(tasks[j..], AdmissionFn(k)) <= ledger.limits.At(k)
  }

  /** What is consumed when the `j`th stage fails: all of the stages before it, its own
      admission, and its charges if they fit. */
  ghost function ConsumedAt(driver: Driver, tasks: seq<Task>, snapshot: RunState, ledger: Ledger, j: nat, k: BudgetKind): nat
    requires j < |tasks|
  {
    ledger.usage.consumed.At(k) + SumBy(tasks[..j], SpendFn(driver, snapshot, k)) + tasks[j].AdmissionFor(k)
    + if CostFits(driver, tasks, snapshot, ledger, j) then driver.Reply(tasks[j], snapshot).cost.At(k) else 0
  }

  lemma CostFitsFirst(driver: Driver, tasks: seq<Task>, snapshot: RunState, ledger: Ledger)
    requires ledger.Sound() && Holds(ledger, tasks) && tasks != []
    ensures CostFits(driver, tasks, snapshot, ledger, 0) <==> Affordable(CommitOne(ledger, tasks[0]), driver.Reply(tasks[0], snapshot).cost)
  {
    CommitOneSpec(ledger, tasks);
    assert tasks[..0] == [] && tasks[0..] == tasks;
    var started, cost := CommitOne(ledger, tasks[0]), driver.Reply(tasks[0], snapshot).cost;
    forall k: BudgetKind
      ensures cost.At(k) <= started.Remaining(k)
              <==> ledger.usage.consumed.At(k) + SumBy(tasks[..0], SpendFn(driver, snapshot, k)) + cost.At(k)
                   + SumBy(tasks[0..], AdmissionFn(k)) <= ledger.limits.At(k)
    {
      assert started.usage.reserved.At(k) == SumBy(tasks[1..], AdmissionFn(k));
    }
  }

  /** The stages before the `j`th, without the first. */
  lemma RestBefore(driver: Driver, tasks: seq<Task>, snapshot: RunState, j: nat, k: BudgetKind)
    requires 1 <= j <= |tasks|
    ensures SumBy(tasks[..j], SpendFn(driver, snapshot, k))
            == tasks[0].AdmissionFor(k) + driver.Reply(tasks[0], snapshot).cost.At(k) + SumBy(tasks[1..][..j - 1], SpendFn(driver, snapshot, k))
  {
    assert tasks[..j][1..] == tasks[1..][..j - 1];
  }

  lemma CostFitsRest(driver: Driver, tasks: seq<Task>, snapshot: RunState, ledger: Ledger, charged: Ledger, j: nat)
    requires tasks != [] && j + 1 < |tasks| && charged.limits == ledger.limits
    requires forall k: BudgetKind :: charged.usage.consumed.At(k)
               == ledger.usage.consumed.At(k) + tasks[0].AdmissionFor(k) + driver.Reply(tasks[0], snapshot).cost.At(k)
    ensures CostFits(driver, tasks[1..], snapshot, charged, j) <==> CostFits(driver, tasks, snapshot, ledger, j + 1)
    ensures forall k: BudgetKind ::
              ConsumedAt(driver, tasks[1..], snapshot, charged, j, k) == ConsumedAt(driver, tasks, snapshot, ledger, j + 1, k)
  {
    assert tasks[1..][j..] == tasks[j + 1..] && tasks[1..][j] == tasks[j + 1];
    forall k: BudgetKind
      ensures charged.usage.consumed.At(k) + SumBy(tasks[1..][..j], SpendFn(driver, snapshot, k))
              == ledger.usage.consumed.At(k) + SumBy(tasks[..j + 1], SpendFn(driver, snapshot, k))
    {
      RestBefore(driver, tasks, snapshot, j + 1, k);
    }
  }

  /** How the stages of a frontier end, after the first of them. */
  lemma StagesUnroll(driver: Driver, tasks: seq<Task>, snapshot: RunState, ledger: Ledger)
    requires tasks != []
    ensures var started, reply := CommitOne(ledger, tasks[0]), driver.Reply(tasks[0], snapshot);
            var charged := ChargeCost(started, reply.cost);
            var r := RunStages(driver, tasks, snapshot, ledger);
            if !Affordable(started, reply.cost) then r.ledger == ReleaseAll(started, tasks[1..])
            else if reply.result.Err? then r.ledger == ReleaseAll(charged, tasks[1..])
            else r.ledger == RunStages(driver, tasks[1..], snapshot, charged).ledger
                 && (r.StagesErr? <==> RunStages(driver, tasks[1..], snapshot, charged).StagesErr?)
  {
  }

  /** What a frontier leaves in the ledger when its `j`th stage fails. */
  ghost predicate LeftAt(driver: Driver, tasks: seq<Task>, snapshot: RunState, ledger: Ledger, j: nat, last: Ledger)
    requires j < |tasks|
  {
    last.usage.reserved == ZERO
    && forall k: BudgetKind :: last.usage.consumed.At(k) == ConsumedAt(driver, tasks, snapshot, ledger, j, k)
  }

  lemma FirstFails(driver: Driver, tasks: seq<Task>, snapshot: RunState, ledger: Ledger)
    requires ledger.Sound() && Holds(ledger, tasks) && tasks != []
    requires !Affordable(CommitOne(ledger, tasks[0]), driver.Reply(tasks[0], snapshot).cost) || driver.Reply(tasks[0], snapshot).result.Err?
    ensures FailsAt(driver, tasks, snapshot, ledger, 0)
    ensures LeftAt(driver, tasks, snapshot, ledger, 0, RunStages(driver, tasks, snapshot, ledger).ledger)
  {
    CommitOneSpec(ledger, tasks);
    CostFitsFirst(driver, tasks, snapshot, ledger);
    StagesUnroll(driver, tasks, snapshot, ledger);
    var started, cost := CommitOne(ledger, tasks[0]), driver.Reply(tasks[0], snapshot).cost;
    assert tasks[..0] == [];
    ReleaseAllSettles(started, tasks[1..]);
    if Affordable(started, cost) {
      ReleaseAllSettles(ChargeCost(started, cost), tasks[1..]);
    }
  }

  /** If the stages of a frontier do not all return, one of them is the first that fails,
      and everything charged up to there stays charged. */
  lemma {:induction false} StagesStopAt(driver: Driver, tasks: seq<Task>, snapshot: RunState, ledger: Ledger) returns (j: nat)
    requires ledger.Sound() && Holds(ledger, tasks) && RunStages(driver, tasks, snapshot, ledger).StagesErr?
    ensures FailsAt(driver, tasks, snapshot, ledger, j)
    ensures LeftAt(driver, tasks, snapshot, ledger, j, RunStages(driver, tasks, snapshot, ledger).ledger)
    decreases tasks
  {
    var started, reply := CommitOne(ledger, tasks[0]), driver.Reply(tasks[0], snapshot);
    j := 0;
    if !Affordable(started, reply.cost) || reply.result.Err? {
      FirstFails(driver, tasks, snapshot, ledger);
    } else {
      var charged := ChargeCost(started, reply.cost);
      CommitOneSpec(ledger, tasks);
      CostFitsFirst(driver, tasks, snapshot, ledger);
      StagesUnroll(driver, tasks, snapshot, ledger);
      var rest := StagesStopAt(driver, tasks[1..], snapshot, charged);
      j := rest + 1;
      LaterFails(driver, tasks, snapshot, ledger, charged, rest);
    }
  }

  lemma LaterFails(driver: Driver, tasks: seq<Task>, snapshot: RunState, ledger: Ledger, charged: Ledger, j: nat)
    requires tasks != [] && charged.limits == ledger.limits && CostFits(driver, tasks, snapshot, ledger, 0)
    requires driver.Reply(tasks[0], snapshot).result.Ok?
    requires forall k: BudgetKind :: charged.usage.consumed.At(k)
               == ledger.usage.consumed.At(k) + tasks[0].AdmissionFor(k) + driver.Reply(tasks[0], snapshot).cost.At(k)
    requires FailsAt(driver, tasks[1..], snapshot, charged, j)
    ensures FailsAt(driver, tasks, snapshot, ledger, j + 1)
    ensures forall k: BudgetKind ::
              ConsumedAt(driver, tasks[1..], snapshot, charged, j, k) == ConsumedAt(driver, tasks, snapshot, ledger, j + 1, k)
  {
    forall i: nat | i <= j
      ensures CostFits(driver, tasks[1..], snapshot, charged, i) <==> CostFits(driver, tasks, snapshot, ledger, i + 1)
    {
      CostFitsRest(driver, tasks, snapshot, ledger, charged, i);
    }
    CostFitsRest(driver, tasks, snapshot, ledger, charged, j);
    forall i: nat | 1 <= i <= j + 1 ensures tasks[i] == tasks[1..][i - 1] && (i <= j ==> CostFits(driver, tasks, snapshot, ledger, i)) {
      assert i <= j ==> CostFits(driver, tasks[1..], snapshot, charged, i - 1);
    }
  }

  /** The stages of the frontier in order, each once more than before, and the outcomes
      that they answered with. */
  ghost predicate Answered(graph: WorkflowGraph, driver: Driver, head: Head, t: Turn) {
    && t.Matched() && |t.tasks| == |head.frontier|
    && forall i | 0 <= i < |t.tasks| ::
         && t.tasks[i].id == Text.Sorted(head.frontier)[i] && t.tasks[i].id in graph.stages
         && t.tasks[i].definition == graph.stages[t.tasks[i].id]
         && t.tasks[i].attempt == OneMoreAttempt(head.state.attempts, t.tasks[i].id)
         && driver.stage(t.tasks[i].definition, t.tasks[i].id, t.tasks[i].attempt, head.state.(currentStages := head.frontier)).result
            == Ok(t.outcomes[i])
  }

  /** `after` counts one more attempt for each of `ids`. */
  ghost predicate Counted(before: map<StageId, nat>, ids: set<StageId>, after: map<StageId, nat>) {
    && (forall id :: id in after <==> id in before || id in ids)
    && forall id | id in after :: after[id] == if id in ids then OneMoreAttempt(before, id) else before[id]
  }

  ghost predicate Ran(graph: WorkflowGraph, driver: Driver, head: Head, t: Turn) {
    && t.graph == graph && Answered(graph, driver, head, t)
    && t.state == head.state.(currentStages := head.frontier, attempts := t.state.attempts)
    && Counted(head.state.attempts, head.frontier, t.state.attempts)
  }

  /** The next loop head: the stages that the edges taken lead to, the state grown by the
      outcomes, and a checkpoint of exactly that if some stage asks for one. */
  ghost predicate Follows(head: Head, t: Turn, next: Head, sealed: Option<Checkpoint>)
    requires t.Matched()
  {
    && (forall id :: id in next.frontier <==> exists i: nat :: i < |t.tasks| && t.Reaches(i, id))
    && Commits(head, t, next, sealed)
  }

  ghost predicate Commits(head: Head, t: Turn, next: Head, sealed: Option<Checkpoint>)
    requires t.Matched()
  {
    && next.state == t.StateAt(|t.tasks|, next.ledger.usage)
    && t.Room(|t.tasks|) <= RoomOf(t.ledger) && next.ledger == t.ledger.Spend(RepairIterations, RoomOf(t.ledger) - t.Room(|t.tasks|))
    && next.sequence == head.sequence + 1 && next.transitions == head.transitions + |head.frontier|
    && (sealed.Some? <==> exists i: nat :: i < |t.tasks| && t.Seals(i))
    && (sealed.Some? ==> SealsHead(sealed.value, next) && sealed.value.responseArtifacts == Gather(t.outcomes, PatchesOf()))
  }

  lemma ReachedBy(t: Turn, s: set<StageId>)
    requires t.Matched() && forall id :: id in s <==> exists i: nat :: i < |t.tasks| && ReachesFn(t)(i, id)
    ensures forall id :: id in s <==> exists i: nat :: i < |t.tasks| && t.Reaches(i, id)
  {
    forall id ensures id in s <==> exists i: nat :: i < |t.tasks| && t.Reaches(i, id) {
      if id in s {
        var i: nat :| i < |t.tasks| && ReachesFn(t)(i, id);
        assert t.Reaches(i, id);
      }
      if i: nat :| i < |t.tasks| && t.Reaches(i, id) {
        assert ReachesFn(t)(i, id);
      }
    }
  }

  lemma SortedIsDistinct(s: set<StageId>)
    ensures Distinct(Text.Sorted(s))
  {
    var ids := Text.Sorted(s);
    forall i, k | 0 <= i < k < |ids| ensures ids[i] != ids[k] {
      Text.LessIsTotal(ids[i], ids[k]);
    }
  }

  /** The ledger after the stages: nothing reserved, and consumption grown by their
      admissions and charges, within the limits. */
  ghost predicate Charged(driver: Driver, head: Head, t: Turn) {
    && t.ledger.limits == head.ledger.limits && t.ledger.usage.reserved == ZERO && t.ledger.Sound()
    && forall k: BudgetKind ::
         t.ledger.usage.consumed.At(k)
         == head.ledger.usage.consumed.At(k) + SumBy(t.tasks, SpendFn(driver, head.state.(currentStages := head.frontier), k))
  }

  lemma AllFit(t: Turn)
    requires t.Matched() && forall i: nat | i < |t.tasks| :: FitsFn(t)(i)
    ensures forall i: nat | i < |t.tasks| :: t.Fits(i)
  {
    forall i: nat | i < |t.tasks| ensures t.Fits(i) {
      assert FitsFn(t)(i);
    }
  }

  /** What a turn that commits has run and what it leads to. */
  lemma TurnCommits(graph: WorkflowGraph, driver: Driver, head: Head) returns (t: Turn)
    requires HeadOk(graph, head) && FrontierStep(graph, driver, head).Committed?
    ensures Ran(graph, driver, head, t) && Charged(driver, head, t) && forall i: nat | i < |t.tasks| :: t.Fits(i)
    ensures Follows(head, t, FrontierStep(graph, driver, head).head, FrontierStep(graph, driver, head).sealed)
  {
    var batch := PlanFrontier(graph, head).batch;
    var a := AdmitAttempts(graph, Admitted([], head.state.attempts, head.transitions), batch).value;
    var held := ReserveAll(head.ledger, a.tasks).value;
    var state := head.state.(currentStages := head.frontier);
    AdmissionCovers(graph, head, batch, a, held);
    RunStagesSpec(driver, a.tasks, state, held);
    var r := RunStages(driver, a.tasks, state, held);
    t := Turn(graph, a.tasks, r.outcomes, state.(attempts := a.attempts), r.ledger);
    RanAll(graph, driver, head, batch, a, t);
    assert Charged(driver, head, t);
    TurnApplies(t);
    AllFit(t);
    var n := ApplyAll(graph, FirstDraft(t.state, t.state.attempts, t.ledger), t.tasks, t.outcomes).value;
    assert FrontierStep(graph, driver, head) == Conclude(driver.seals, head, state, a, n);
    ConcludedFollows(driver.seals, head, state, a, t, n);
  }

  lemma RanAll(graph: WorkflowGraph, driver: Driver, head: Head, batch: seq<StageId>, a: Admitted, t: Turn)
    requires batch == Text.Sorted(head.frontier) && (forall id | id in batch :: id in graph.stages)
    requires AdmitAttempts(graph, Admitted([], head.state.attempts, head.transitions), batch) == Ok(a)
    requires t.graph == graph && t.tasks == a.tasks && t.Matched()
    requires t.state == head.state.(currentStages := head.frontier, attempts := a.attempts)
    requires forall i | 0 <= i < |t.tasks| :: driver.Reply(t.tasks[i], head.state.(currentStages := head.frontier)).result == Ok(t.outcomes[i])
    ensures Ran(graph, driver, head, t)
  {
    SortedIsDistinct(head.frontier);
    AttemptsCounted(graph, head, batch, a);
    AdmittedTasks(graph, head, batch, a);
  }

  lemma AdmittedTasks(graph: WorkflowGraph, head: Head, batch: seq<StageId>, a: Admitted)
    requires Distinct(batch) && (forall id | id in batch :: id in graph.stages)
    requires AdmitAttempts(graph, Admitted([], head.state.attempts, head.transitions), batch) == Ok(a)
    ensures |a.tasks| == |batch|
    ensures forall i | 0 <= i < |batch| ::
              batch[i] in graph.stages && a.tasks[i] == Task(batch[i], graph.stages[batch[i]], OneMoreAttempt(head.state.attempts, batch[i]))
  {
    TasksMade(graph, Admitted([], head.state.attempts, head.transitions), batch);
    forall i | 0 <= i < |batch|
      ensures batch[i] in graph.stages && a.tasks[i] == Task(batch[i], graph.stages[batch[i]], OneMoreAttempt(head.state.attempts, batch[i]))
    {
      assert a.tasks[i] == a.tasks[|Admitted([], head.state.attempts, head.transitions).tasks| + i];
    }
  }

  lemma AttemptsCounted(graph: WorkflowGraph, head: Head, batch: seq<StageId>, a: Admitted)
    requires batch == Text.Sorted(head.frontier) && Distinct(batch) && (forall id | id in batch :: id in graph.stages)
    requires AdmitAttempts(graph, Admitted([], head.state.attempts, head.transitions), batch) == Ok(a)
    ensures Counted(head.state.attempts, head.frontier, a.attempts)
  {
    AttemptsMade(graph, Admitted([], head.state.attempts, head.transitions), batch);
    assert forall id :: id in batch <==> id in head.frontier;
  }

  lemma Concluded(seals: Checkpoint -> bool, head: Head, state: RunState, a: Admitted, t: Turn, n: Draft)
    requires t.Matched() && t.Edges(|t.tasks|, n) && t.Values(|t.tasks|, n)
    requires a.transitions == head.transitions + |head.frontier|
    requires Conclude(seals, head, state, a, n).Committed?
    ensures var step := Conclude(seals, head, state, a, n);
            step.head.frontier == n.frontier && Commits(head, t, step.head, step.sealed)
  {
    assert t.outcomes[..|t.tasks|] == t.outcomes;
  }

  // ---- exactly when a turn commits -----------------------------------------

  /** All stages of the frontier may run once more, and the graph allows the transitions. */
  ghost predicate MayStart(graph: WorkflowGraph, head: Head) {
    && Schedulable(graph, Text.Sorted(head.frontier))
    && head.transitions + |head.frontier| <= Min(graph.limits.maximumTransitions, U32_MAX)
    && forall id | id in head.frontier :: MayRetry(graph, head.state.attempts, id)
  }

  /** The turn runs these stages to these outcomes, has room for all their calls, finds
      every outcome admissible and an edge for every stage, and the driver seals the
      checkpoint if one is due. */
  ghost predicate MayCommit(graph: WorkflowGraph, driver: Driver, head: Head, t: Turn) {
    && MayStart(graph, head) && Ran(graph, driver, head, t) && Charged(driver, head, t)
    && Schedules.RoomForCalls(head.ledger, t.tasks)
    && (forall i: nat | i < |t.tasks| :: t.Fits(i))
    && head.sequence + 1 <= U64_MAX
    && forall next, c | Follows(head, t, next, Some(c)) :: driver.seals(c)
  }

  /** A turn has one way to go on. */
  lemma FollowsOnce(head: Head, t: Turn, a: Head, x: Option<Checkpoint>, b: Head, y: Option<Checkpoint>)
    requires t.Matched() && Follows(head, t, a, x) && Follows(head, t, b, y)
    ensures a == b && x == y
  {
    assert forall id :: id in a.frontier <==> id in b.frontier;
    assert a.frontier == b.frontier;
  }

  lemma StartIff(graph: WorkflowGraph, head: Head)
    requires HeadOk(graph, head)
    ensures MayStart(graph, head)
            <==> && PlanFrontier(graph, head).Go?
                 && AdmitAttempts(graph, Admitted([], head.state.attempts, head.transitions), PlanFrontier(graph, head).batch).Ok?
  {
    var ids := Text.Sorted(head.frontier);
    DecidedIff(graph, head, Ok(Succeeded));
    SortedIsDistinct(head.frontier);
    if PlanFrontier(graph, head).Go? {
      AdmittedIff(graph, Admitted([], head.state.attempts, head.transitions), ids);
      assert forall id :: id in ids <==> id in head.frontier;
    }
  }

  lemma CallsHadRoom(head: Head, tasks: seq<Task>)
    requires head.ledger.Sound()
    ensures ReserveAll(head.ledger, tasks).Ok? <==> Schedules.RoomForCalls(head.ledger, tasks)
  {
    ReserveAllSpec(head.ledger, tasks);
    Schedules.RoomForCallsIff(head.ledger, tasks);
  }

  lemma CommitsOnlyIf(graph: WorkflowGraph, driver: Driver, head: Head) returns (t: Turn)
    requires HeadOk(graph, head) && FrontierStep(graph, driver, head).Committed?
    ensures MayCommit(graph, driver, head, t)
  {
    t := TurnCommits(graph, driver, head);
    StartIff(graph, head);
    var a := AdmitAttempts(graph, Admitted([], head.state.attempts, head.transitions), PlanFrontier(graph, head).batch).value;
    SameTasks(graph, head, PlanFrontier(graph, head).batch, a, driver, t);
    CallsHadRoom(head, a.tasks);
    StepSeals(graph, driver, head);
    SealedByDriver(driver.seals, head, t, FrontierStep(graph, driver, head));
  }

  lemma StepSeals(graph: WorkflowGraph, driver: Driver, head: Head)
    requires FrontierStep(graph, driver, head).Committed?
    ensures var step := FrontierStep(graph, driver, head);
            head.sequence + 1 <= U64_MAX && (step.sealed.Some? ==> driver.seals(step.sealed.value))
  {
  }

  lemma SealedByDriver(seals: Checkpoint -> bool, head: Head, t: Turn, step: Step)
    requires t.Matched() && step.Committed? && (step.sealed.Some? ==> seals(step.sealed.value)) && Follows(head, t, step.head, step.sealed)
    ensures forall next, c | Follows(head, t, next, Some(c)) :: seals(c)
  {
    forall next, c | Follows(head, t, next, Some(c)) ensures seals(c) {
      FollowsOnce(head, t, step.head, step.sealed, next, Some(c));
    }
  }

  lemma SameTasks(graph: WorkflowGraph, head: Head, batch: seq<StageId>, a: Admitted, driver: Driver, t: Turn)
    requires batch == Text.Sorted(head.frontier) && (forall id | id in batch :: id in graph.stages)
    requires AdmitAttempts(graph, Admitted([], head.state.attempts, head.transitions), batch) == Ok(a)
    requires Ran(graph, driver, head, t)
    ensures t.tasks == a.tasks && t.state.attempts == a.attempts
  {
    SortedIsDistinct(head.frontier);
    AttemptsCounted(graph, head, batch, a);
    AdmittedTasks(graph, head, batch, a);
    forall i | 0 <= i < |batch| ensures t.tasks[i] == a.tasks[i] {
      assert t.tasks[i].id == batch[i];
    }
    CountedOnce(head.state.attempts, head.frontier, t.state.attempts, a.attempts);
  }

  lemma CountedOnce(before: map<StageId, nat>, ids: set<StageId>, a: map<StageId, nat>, b: map<StageId, nat>)
    requires Counted(before, ids, a) && Counted(before, ids, b)
    ensures a == b
  {
    assert forall id :: id in a <==> id in b;
    assert a.Keys == b.Keys;
  }

  lemma CommitsIf(graph: WorkflowGraph, driver: Driver, head: Head, t: Turn)
    requires HeadOk(graph, head) && MayCommit(graph, driver, head, t)
    ensures FrontierStep(graph, driver, head).Committed?
  {
    StartIff(graph, head);
    var batch := PlanFrontier(graph, head).batch;
    var a := AdmitAttempts(graph, Admitted([], head.state.attempts, head.transitions), batch).value;
    SameTasks(graph, head, batch, a, driver, t);
    CallsHadRoom(head, a.tasks);
    var held := ReserveAll(head.ledger, a.tasks).value;
    AdmissionCovers(graph, head, batch, a, held);
    var state := head.state.(currentStages := head.frontier);
    StagesDid(driver, head, a, held, t);
    FitAll(t);
    TurnApplies(t);
    var n := ApplyAll(graph, FirstDraft(t.state, t.state.attempts, t.ledger), t.tasks, t.outcomes).value;
    assert FrontierStep(graph, driver, head) == Conclude(driver.seals, head, state, a, n);
    ConcludesIf(driver, head, state, a, t, n);
  }

  lemma FitAll(t: Turn)
    requires t.Matched() && forall i: nat | i < |t.tasks| :: t.Fits(i)
    ensures forall i: nat | i < |t.tasks| :: FitsFn(t)(i)
  {
  }

  lemma StagesDid(driver: Driver, head: Head, a: Admitted, held: Ledger, t: Turn)
    requires held.Sound() && Holds(held, a.tasks) && held.limits == head.ledger.limits && held.usage.consumed == head.ledger.usage.consumed
    requires t.tasks == a.tasks && t.Matched() && Charged(driver, head, t)
    requires forall i | 0 <= i < |t.tasks| :: driver.Reply(t.tasks[i], head.state.(currentStages := head.frontier)).result == Ok(t.outcomes[i])
    ensures RunStages(driver, a.tasks, head.state.(currentStages := head.frontier), held) == StagesOk(t.outcomes, t.ledger)
  {
    var state := head.state.(currentStages := head.frontier);
    assert forall k: BudgetKind :: t.ledger.usage.consumed.At(k) + t.ledger.usage.reserved.At(k) <= t.ledger.limits.At(k);
    StagesReturnIff(driver, a.tasks, state, held);
    RunStagesSpec(driver, a.tasks, state, held);
    var r := RunStages(driver, a.tasks, state, held);
    TallyExtensional(r.ledger.usage.consumed, t.ledger.usage.consumed);
    assert r.outcomes == t.outcomes;
  }

  lemma ConcludesIf(driver: Driver, head: Head, state: RunState, a: Admitted, t: Turn, n: Draft)
    requires t.Matched() && Drafted(t, |t.tasks|, n) && a.transitions == head.transitions + |head.frontier| && head.sequence + 1 <= U64_MAX
    requires forall next, c | Follows(head, t, next, Some(c)) :: driver.seals(c)
    ensures Conclude(driver.seals, head, state, a, n).Committed?
  {
    var all := (c: Checkpoint) => true;
    var step := Conclude(all, head, state, a, n);
    assert step.Committed? && (n.seal ==> step.sealed == Some(SealOf(n, head.sequence + 1)));
    ConcludedFollows(all, head, state, a, t, n);
    assert n.seal ==> driver.seals(SealOf(n, head.sequence + 1));
  }

  lemma ConcludedFollows(seals: Checkpoint -> bool, head: Head, state: RunState, a: Admitted, t: Turn, n: Draft)
    requires t.Matched() && Drafted(t, |t.tasks|, n) && a.transitions == head.transitions + |head.frontier|
    requires Conclude(seals, head, state, a, n).Committed?
    ensures var step := Conclude(seals, head, state, a, n); Follows(head, t, step.head, step.sealed)
  {
    Concluded(seals, head, state, a, t, n);
    ReachedBy(t, n.frontier);
  }

  /** A turn commits if and only if its frontier can be scheduled, its attempts and calls
      are within their limits, its stages answer within the budget, every outcome is
      admissible and every stage has an edge to take, and the driver seals the checkpoint
      that is due. */
  lemma {:induction false} TurnCommitsIff(graph: WorkflowGraph, driver: Driver, head: Head)
    requires HeadOk(graph, head)
    ensures FrontierStep(graph, driver, head).Committed? <==> exists t :: MayCommit(graph, driver, head, t)
  {
    if FrontierStep(graph, driver, head).Committed? {
      var t := CommitsOnlyIf(graph, driver, head);
    }
    if t :| MayCommit(graph, driver, head, t) {
      CommitsIf(graph, driver, head, t);
    }
  }
}
