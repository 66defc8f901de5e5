/** Whole runs: the loop over frontiers, `execute`, `resume`, and what resuming
from a sealed checkpoint means. */
module Runs {
  import opened Common
  import opened Budget
  import opened Workflow
  import opened Serial

  datatype RunResult = RunResult(
    result: Result<TerminalOutcome, Error>, state: RunState, ledger: Ledger, seals: seq<Checkpoint>)

  function AsSeq<T>(o: Option<T>): seq<T> { if o.Some? then [o.value] else [] }

  /** One turn of the loop, as a function of its head. */
  type Stepper = Head -> Step

  /** Any executor of frontiers that keeps the loop invariant. The theorems below
      hold for all of them; the executor with a deterministic driver is one. */
  ghost predicate Lawful(graph: WorkflowGraph, step: Stepper) {
    forall h: Head :: HeadOk(graph, h) ==> StepOk(graph, h, step(h))
  }

  /** The executor with a deterministic driver. */
  ghost function SerialStepper(graph: WorkflowGraph, driver: Driver): (step: Stepper)
    ensures Lawful(graph, step)
  {
    var step := (h: Head) => FrontierStep(graph, driver, h);
    assert Lawful(graph, step) by {
      forall h: Head | HeadOk(graph, h) ensures StepOk(graph, h, step(h)) {
        FrontierStepOk(graph, driver, h);
      }
    }
    step
  }

  /** The loop. Termination on arbitrary cyclic graphs: every commit of a
      non-empty frontier strictly advances the transition count, up to a limit. */
  ghost function Run(graph: WorkflowGraph, step: Stepper, head: Head): RunResult
    requires HeadOk(graph, head) && Lawful(graph, step)
    decreases graph.limits.maximumTransitions - head.transitions
  {
    match step(head)
    case Ended(result, state, ledger) => RunResult(result, state, ledger, [])
    case Committed(next, sealed) =>
      var rest := Run(graph, step, next);
      rest.(seals := AsSeq(sealed) + rest.seals)
  }

  function Continue(before: seq<Checkpoint>, r: RunResult): RunResult { r.(seals := before + r.seals) }

  /** One turn of the loop after the checkpoints `before`. */
  lemma RunUnrolls(graph: WorkflowGraph, step: Stepper, head: Head, before: seq<Checkpoint>)
    requires HeadOk(graph, head) && Lawful(graph, step)
    ensures StepOk(graph, head, step(head))
    ensures step(head).Ended? ==>
              Continue(before, Run(graph, step, head)) == RunResult(step(head).result, step(head).state, step(head).ledger, before)
    ensures step(head).Committed? ==>
              Continue(before, Run(graph, step, head))
              == Continue(before + AsSeq(step(head).sealed), Run(graph, step, step(head).head))
  {
    assert StepOk(graph, head, step(head));
    if step(head).Committed? {
      ContinueAgain(before, AsSeq(step(head).sealed), Run(graph, step, step(head).head));
    } else {
      assert before + [] == before;
    }
  }

  lemma ContinueAgain(before: seq<Checkpoint>, first: seq<Checkpoint>, r: RunResult)
    ensures Continue(before, Continue(first, r)) == Continue(before + first, r)
  {
    assert before + (first + r.seals) == before + first + r.seals;
  }

  /** The checks at the top of `run`: the transition count is rebuilt from the
      attempts, so a resume cannot reset it. */
  ghost function Launch(graph: WorkflowGraph, step: Stepper, state: RunState, ledger: Ledger,
                        frontier: set<StageId>, sequence: nat): RunResult
    requires Lawful(graph, step) && ledger.Sound() && ledger.usage.reserved == ZERO && state.budget == ledger.usage && frontier != {}
  {
    var transitions := Total(state.attempts);
    if transitions > U32_MAX then RunResult(Err(TransitionCountOverflow), state, ledger, [])
    else if transitions > graph.limits.maximumTransitions then RunResult(Err(TransitionCountExceedsLimit), state, ledger, [])
    else Run(graph, step, Head(state, ledger, frontier, sequence, transitions))
  }

  ghost function Execute(graph: WorkflowGraph, step: Stepper, ledger: Ledger, state: RunState): RunResult
    requires ledger.Sound() && Lawful(graph, step)
  {
    match ledger.MergeFloor(state.budget)
    case Err(e) => RunResult(Err(BudgetRefused(e)), state, ledger, [])
    case Ok(merged) =>
      MergeFloorIsMonotoneAndIdempotent(ledger, state.budget);
      Launch(graph, step, state.(budget := merged.usage), merged, {graph.entry}, 0)
  }

  function ResumeCheck(graph: WorkflowGraph, c: Checkpoint, caller: RunState): Option<Error> {
    if c.schemaVersion != 1 then Some(UnsupportedSchema)
    else if !c.IdentityCoherent() then Some(IncoherentCheckpoint)
    else if c.runId != caller.runId || c.candidateId != caller.candidateId then Some(ForeignCheckpoint)
    else if c.workflowPosition == {} then Some(EmptyPosition)
    else if !(c.workflowPosition <= graph.stages.Keys) then Some(UnknownPosition)
    else if caller.budget.reserved != ZERO then Some(UnsettledCaller)
    else None
  }

  /** The floor covers the checkpoint and whatever the caller spent after it. */
  function Floor(c: Checkpoint, caller: RunState): BudgetUsage {
    c.state.budget.(consumed := PointwiseMax(c.state.budget.consumed, caller.budget.consumed))
  }

  ghost function Resume(graph: WorkflowGraph, step: Stepper, ledger: Ledger, c: Checkpoint, caller: RunState): RunResult
    requires ledger.Sound() && Lawful(graph, step)
  {
    match ResumeCheck(graph, c, caller)
    case Some(e) => RunResult(Err(e), caller, ledger, [])
    case None =>
      match ledger.MergeFloor(Floor(c, caller))
      case Err(e) => RunResult(Err(BudgetRefused(e)), caller, ledger, [])
      case Ok(merged) =>
        MergeFloorIsMonotoneAndIdempotent(ledger, Floor(c, caller));
        Launch(graph, step, c.state.(budget := merged.usage), merged, c.workflowPosition, c.createdAtSequence)
  }

  // ---- resuming simulates continuing ---------------------------------------

  function FreshLedger(limits: Tally): Ledger { Ledger(limits, BudgetUsage(ZERO, ZERO)) }

  /** A caller that belongs to the checkpoint's run and spent nothing beyond it. */
  ghost predicate CallerAt(c: Checkpoint, caller: RunState) {
    && caller.runId == c.runId && caller.candidateId == c.candidateId
    && caller.budget.reserved == ZERO && Below(caller.budget.consumed, c.state.budget.consumed)
  }

  /** A fresh process that resumes a sealed loop head continues exactly there. */
  lemma ResumeReachesSealedHead(graph: WorkflowGraph, step: Stepper, h: Head, c: Checkpoint, caller: RunState)
    requires Lawful(graph, step) && HeadOk(graph, h) && SealsHead(c, h) && h.frontier <= graph.stages.Keys && CallerAt(c, caller)
    ensures Resume(graph, step, FreshLedger(h.ledger.limits), c, caller) == Run(graph, step, h)
  {
    SealedHeadIsRebuilt(graph, h, c, caller);
  }

  /** The loop head at which an admitted resume begins. */
  ghost function ResumedHead(c: Checkpoint, merged: Ledger): Head {
    Head(c.state.(budget := merged.usage), merged, c.workflowPosition, c.createdAtSequence, Total(c.state.attempts))
  }

  /** A resume of this checkpoint passes its checks and begins at this loop head. */
  ghost predicate ResumesAt(graph: WorkflowGraph, ledger: Ledger, c: Checkpoint, caller: RunState, h: Head) {
    && ResumeCheck(graph, c, caller).None? && ledger.MergeFloor(Floor(c, caller)).Ok?
    && h == ResumedHead(c, ledger.MergeFloor(Floor(c, caller)).value)
  }

  /** A fresh process rebuilds exactly the loop head that a checkpoint sealed. */
  lemma SealedHeadIsRebuilt(graph: WorkflowGraph, h: Head, c: Checkpoint, caller: RunState)
    requires HeadOk(graph, h) && SealsHead(c, h) && h.frontier <= graph.stages.Keys && CallerAt(c, caller)
    ensures ResumesAt(graph, FreshLedger(h.ledger.limits), c, caller, h)
  {
    var anew := FreshLedger(h.ledger.limits);
    var floor := Floor(c, caller);
    TallyExtensional(floor.consumed, c.state.budget.consumed);
    TallyExtensional(PointwiseMax(ZERO, floor.consumed), h.ledger.usage.consumed);
    assert Below(floor.consumed, anew.limits);
    assert anew.MergeFloor(floor) == Ok(h.ledger);
    assert c.state.(budget := h.ledger.usage) == h.state;
  }

  lemma DropFromAppend<T>(a: seq<T>, b: seq<T>, i: nat)
    requires |a| <= 1 && i < |a + b|
    ensures i < |a| ==> (a + b)[i] == a[0] && (a + b)[i + 1..] == b
    ensures i >= |a| ==> (a + b)[i] == b[i - |a|] && (a + b)[i + 1..] == b[i - |a| + 1..]
  {
  }

  /** A run that seals anything commits its first turn and goes on from there. */
  lemma CommittedRun(graph: WorkflowGraph, step: Stepper, head: Head)
    requires Lawful(graph, step) && HeadOk(graph, head) && Run(graph, step, head).seals != []
    ensures step(head).Committed? && StepOk(graph, head, step(head))
    ensures var rest := Run(graph, step, step(head).head);
            Run(graph, step, head) == rest.(seals := AsSeq(step(head).sealed) + rest.seals)
  {
    assert StepOk(graph, head, step(head));
  }

  /** Every checkpoint that a run seals is a loop head of that run, from which the run
      went on to the same end. */
  lemma {:induction false} SealIsALoopHead(graph: WorkflowGraph, step: Stepper, head: Head, i: nat) returns (h: Head)
    requires Lawful(graph, step) && HeadOk(graph, head) && graph.Closed()
    requires i < |Run(graph, step, head).seals|
    ensures HeadOk(graph, h) && SealsHead(Run(graph, step, head).seals[i], h) && h.frontier <= graph.stages.Keys
    ensures h.ledger.limits == head.ledger.limits
    ensures var whole := Run(graph, step, head); Run(graph, step, h) == whole.(seals := whole.seals[i + 1..])
    decreases graph.limits.maximumTransitions - head.transitions
  {
    CommittedRun(graph, step, head);
    var turn := step(head);
    var first := AsSeq(turn.sealed);
    DropFromAppend(first, Run(graph, step, turn.head).seals, i);
    if i < |first| {
      h := turn.head;
    } else {
      h := SealIsALoopHead(graph, step, turn.head, i - |first|);
    }
  }

  /** Resume simulates continuation: resuming from any checkpoint that a run sealed, in a
      fresh process with the same limits, reaches the same result, the same final
      state and ledger, and seals the same remaining checkpoints as the run that was
      never interrupted. */
  lemma {:induction false} ResumeSimulatesContinuation(graph: WorkflowGraph, step: Stepper, head: Head, i: nat, caller: RunState)
    requires Lawful(graph, step) && HeadOk(graph, head) && graph.Closed()
    requires i < |Run(graph, step, head).seals|
    requires CallerAt(Run(graph, step, head).seals[i], caller)
    ensures var whole := Run(graph, step, head);
            Resume(graph, step, FreshLedger(head.ledger.limits), whole.seals[i], caller)
            == whole.(seals := whole.seals[i + 1..])
  {
    var h := SealIsALoopHead(graph, step, head, i);
    ResumeReachesSealedHead(graph, step, h, Run(graph, step, head).seals[i], caller);
  }

  /** A fresh process with the same limits resumes the `i`th checkpoint of the run from
      `head`, for a caller that spent nothing beyond it, at `resumed`. */
  ghost predicate Resumes(graph: WorkflowGraph, step: Stepper, head: Head, i: nat, caller: RunState, resumed: Head) {
    && Lawful(graph, step) && HeadOk(graph, head) && graph.Closed() && i < |Run(graph, step, head).seals|
    && var c := Run(graph, step, head).seals[i];
       CallerAt(c, caller) && ResumesAt(graph, FreshLedger(head.ledger.limits), c, caller, resumed)
  }

  /** The loop head of a resume is good, and the run from there is the rest of the run
      that was never interrupted. */
  lemma ResumedHeadContinues(graph: WorkflowGraph, step: Stepper, head: Head, i: nat, caller: RunState, resumed: Head)
    requires Resumes(graph, step, head, i, caller, resumed)
    ensures HeadOk(graph, resumed)
    ensures var whole := Run(graph, step, head); Run(graph, step, resumed) == whole.(seals := whole.seals[i + 1..])
  {
    var h := SealIsALoopHead(graph, step, head, i);
    SealedHeadIsRebuilt(graph, h, Run(graph, step, head).seals[i], caller);
  }

  /** The same for a deterministic driver, from the entry of the workflow. */
  lemma {:induction false} ExecuteThenResume(graph: WorkflowGraph, driver: Driver, ledger: Ledger, state: RunState, i: nat, caller: RunState)
    requires ledger.Sound() && graph.Closed()
    requires i < |Execute(graph, SerialStepper(graph, driver), ledger, state).seals|
    requires CallerAt(Execute(graph, SerialStepper(graph, driver), ledger, state).seals[i], caller)
    ensures var whole := Execute(graph, SerialStepper(graph, driver), ledger, state);
            Resume(graph, SerialStepper(graph, driver), FreshLedger(ledger.limits), whole.seals[i], caller)
            == whole.(seals := whole.seals[i + 1..])
  {
    ExecuteThenResumeAny(graph, SerialStepper(graph, driver), ledger, state, i, caller);
  }

  lemma {:induction false} ExecuteThenResumeAny(graph: WorkflowGraph, step: Stepper, ledger: Ledger, state: RunState, i: nat, caller: RunState)
    requires ledger.Sound() && graph.Closed() && Lawful(graph, step)
    requires i < |Execute(graph, step, ledger, state).seals|
    requires CallerAt(Execute(graph, step, ledger, state).seals[i], caller)
    ensures var whole := Execute(graph, step, ledger, state);
            Resume(graph, step, FreshLedger(ledger.limits), whole.seals[i], caller) == whole.(seals := whole.seals[i + 1..])
  {
    MergeFloorIsMonotoneAndIdempotent(ledger, state.budget);
    var merged := ledger.MergeFloor(state.budget).value;
    ResumeSimulatesContinuation(
      graph, step, Head(state.(budget := merged.usage), merged, {graph.entry}, 0, Total(state.attempts)), i, caller);
  }

  /** Without a validated graph the simulation can break, and only at the position
      check: resuming a sealed head runs exactly when every stage of the position
      is known. */
  lemma ResumePassesChecksIffPositionKnown(graph: WorkflowGraph, h: Head, c: Checkpoint, caller: RunState)
    requires HeadOk(graph, h) && SealsHead(c, h) && CallerAt(c, caller)
    ensures ResumeCheck(graph, c, caller).None? <==> h.frontier <= graph.stages.Keys
    ensures ResumeCheck(graph, c, caller).Some? ==> ResumeCheck(graph, c, caller) == Some(UnknownPosition)
  {
  }

  // ---- whole-run facts -----------------------------------------------------

  /** At every exit of the loop the caller's durable budget is the ledger's, with
      nothing reserved and nothing forgotten, and success means that the last report
      is a passing one. */
  lemma {:induction false} RunEndsSettled(graph: WorkflowGraph, step: Stepper, head: Head)
    requires Lawful(graph, step) && HeadOk(graph, head)
    ensures var r := Run(graph, step, head);
            && r.ledger.Sound() && r.ledger.usage.reserved == ZERO && r.state.budget == r.ledger.usage
            && Below(head.ledger.usage.consumed, r.ledger.usage.consumed)
            && (r.result == Ok(Succeeded) ==> Verified(r.state))
    decreases graph.limits.maximumTransitions - head.transitions
  {
    var turn := step(head);
    if turn.Committed? {
      RunEndsSettled(graph, step, turn.head);
    }
  }

  // ---- checkpoint chains ---------------------------------------------------

  ghost predicate SealsAfter(graph: WorkflowGraph, seals: seq<Checkpoint>, floor: nat) {
    && (forall i | 0 <= i < |seals| :: floor < seals[i].createdAtSequence && Bounded(graph, seals[i]))
    && (forall i, j | 0 <= i < j < |seals| :: seals[i].createdAtSequence < seals[j].createdAtSequence)
  }

  /** The durable transition count respects the workflow limit, and the checkpoint is
      one that can be loaded. */
  ghost predicate Bounded(graph: WorkflowGraph, c: Checkpoint) {
    Total(c.state.attempts) <= graph.limits.maximumTransitions && c.schemaVersion == 1 && c.IdentityCoherent()
  }

  lemma {:induction false} RunSealsAscend(graph: WorkflowGraph, step: Stepper, head: Head)
    requires Lawful(graph, step) && HeadOk(graph, head)
    ensures SealsAfter(graph, Run(graph, step, head).seals, head.sequence)
    decreases graph.limits.maximumTransitions - head.transitions
  {
    var turn := step(head);
    if turn.Committed? {
      RunSealsAscend(graph, step, turn.head);
    }
  }

  lemma ExecuteSealsAscend(graph: WorkflowGraph, step: Stepper, ledger: Ledger, state: RunState)
    requires ledger.Sound() && Lawful(graph, step)
    ensures SealsAfter(graph, Execute(graph, step, ledger, state).seals, 0)
  {
    if ledger.MergeFloor(state.budget).Ok? {
      var merged := ledger.MergeFloor(state.budget).value;
      MergeFloorIsMonotoneAndIdempotent(ledger, state.budget);
      var transitions := Total(state.attempts);
      if transitions <= Min(U32_MAX, graph.limits.maximumTransitions) {
        RunSealsAscend(graph, step, Head(state.(budget := merged.usage), merged, {graph.entry}, 0, transitions));
      }
    }
  }

  /** A process that tries to resume the newest checkpoint. */
  datatype Attempt = Attempt(step: Stepper, ledger: Ledger, caller: RunState) {
    ghost predicate Able(graph: WorkflowGraph) { ledger.Sound() && Lawful(graph, step) }
  }

  /** All the checkpoints on disk after a series of processes, each of which
      resumed the newest one, with any driver, ledger and caller state. */
  ghost function Chain(graph: WorkflowGraph, seals: seq<Checkpoint>, attempts: seq<Attempt>): seq<Checkpoint>
    requires seals != [] && forall i | 0 <= i < |attempts| :: attempts[i].Able(graph)
    decreases attempts
  {
    if attempts == [] then seals
    else
      var a := attempts[0];
      assert a.Able(graph);
      var r := Resume(graph, a.step, a.ledger, seals[|seals| - 1], a.caller);
      Chain(graph, seals + r.seals, attempts[1..])
  }

  /** Along any chain of crashes and resumes the sequences strictly increase and
      the transition limit is never exceeded. */
  lemma {:induction false} ChainAscends(graph: WorkflowGraph, seals: seq<Checkpoint>, attempts: seq<Attempt>, floor: nat)
    requires seals != [] && SealsAfter(graph, seals, floor)
    requires forall i | 0 <= i < |attempts| :: attempts[i].Able(graph)
    ensures SealsAfter(graph, Chain(graph, seals, attempts), floor)
    ensures seals <= Chain(graph, seals, attempts)
    decreases attempts
  {
    if attempts != [] {
      var a := attempts[0];
      var c := seals[|seals| - 1];
      var r := Resume(graph, a.step, a.ledger, c, a.caller);
      ResumeSealsAscend(graph, a, c);
      GrownAscends(graph, seals, r.seals, floor);
      ChainAscends(graph, seals + r.seals, attempts[1..], floor);
    }
  }

  lemma GrownAscends(graph: WorkflowGraph, seals: seq<Checkpoint>, more: seq<Checkpoint>, floor: nat)
    requires seals != [] && SealsAfter(graph, seals, floor)
    requires SealsAfter(graph, more, seals[|seals| - 1].createdAtSequence)
    ensures SealsAfter(graph, seals + more, floor)
  {
    var grown := seals + more;
    forall i, j | 0 <= i < j < |grown|
      ensures grown[i].createdAtSequence < grown[j].createdAtSequence
    {
      assert i < |seals| ==> grown[i].createdAtSequence <= seals[|seals| - 1].createdAtSequence;
    }
  }

  lemma ResumeSealsAscend(graph: WorkflowGraph, a: Attempt, c: Checkpoint)
    requires a.Able(graph)
    ensures SealsAfter(graph, Resume(graph, a.step, a.ledger, c, a.caller).seals, c.createdAtSequence)
  {
    if ResumeCheck(graph, c, a.caller).None? && a.ledger.MergeFloor(Floor(c, a.caller)).Ok? {
      var merged := a.ledger.MergeFloor(Floor(c, a.caller)).value;
      MergeFloorIsMonotoneAndIdempotent(a.ledger, Floor(c, a.caller));
      var transitions := Total(c.state.attempts);
      if transitions <= Min(U32_MAX, graph.limits.maximumTransitions) {
        RunSealsAscend(graph, a.step,
                       Head(c.state.(budget := merged.usage), merged, c.workflowPosition, c.createdAtSequence, transitions));
      }
    }
  }

  /** The end of every launched run shows at least what was consumed before it. */
  lemma LaunchNeverForgets(graph: WorkflowGraph, step: Stepper, state: RunState, ledger: Ledger, frontier: set<StageId>, sequence: nat)
    requires Lawful(graph, step) && ledger.Sound() && ledger.usage.reserved == ZERO && state.budget == ledger.usage && frontier != {}
    ensures var r := Launch(graph, step, state, ledger, frontier, sequence);
            r.state.budget == r.ledger.usage && Below(ledger.usage.consumed, r.ledger.usage.consumed)
  {
    var transitions := Total(state.attempts);
    if transitions <= Min(U32_MAX, graph.limits.maximumTransitions) {
      RunEndsSettled(graph, step, Head(state, ledger, frontier, sequence, transitions));
    }
  }

  /** However `execute` ends, the caller's durable budget is not below what the caller
      brought, and the ledger not below what it had. */
  lemma ExecuteNeverForgets(graph: WorkflowGraph, step: Stepper, ledger: Ledger, caller: RunState)
    requires ledger.Sound() && Lawful(graph, step)
    ensures var r := Execute(graph, step, ledger, caller);
            && Below(ledger.usage.consumed, r.ledger.usage.consumed)
            && Below(caller.budget.consumed, r.state.budget.consumed)
            && (ledger.MergeFloor(caller.budget).Ok? ==> r.state.budget == r.ledger.usage)
  {
    if ledger.MergeFloor(caller.budget).Ok? {
      MergeFloorIsMonotoneAndIdempotent(ledger, caller.budget);
      var merged := ledger.MergeFloor(caller.budget).value;
      LaunchNeverForgets(graph, step, caller.(budget := merged.usage), merged, {graph.entry}, 0);
    }
  }

  /** However a resumed run ends, its durable budget is below neither the caller's
      earlier consumption nor the ledger's, and once the resume is admitted not below
      the checkpoint's either. A refused resume leaves caller and ledger alone. */
  lemma ResumeNeverForgets(graph: WorkflowGraph, step: Stepper, ledger: Ledger, c: Checkpoint, caller: RunState)
    requires ledger.Sound() && Lawful(graph, step)
    ensures var r := Resume(graph, step, ledger, c, caller);
            && Below(ledger.usage.consumed, r.ledger.usage.consumed)
            && Below(caller.budget.consumed, r.state.budget.consumed)
            && (if ResumeCheck(graph, c, caller).None? && ledger.MergeFloor(Floor(c, caller)).Ok?
                then r.state.budget == r.ledger.usage && Below(c.state.budget.consumed, r.state.budget.consumed)
                else r.state == caller && r.ledger == ledger && r.result.Err?)
  {
    if ResumeCheck(graph, c, caller).None? && ledger.MergeFloor(Floor(c, caller)).Ok? {
      MergeFloorIsMonotoneAndIdempotent(ledger, Floor(c, caller));
      var merged := ledger.MergeFloor(Floor(c, caller)).value;
      LaunchNeverForgets(graph, step, c.state.(budget := merged.usage), merged, c.workflowPosition, c.createdAtSequence);
    }
  }

  /** The checkpoint is of the supported schema, coherent, of the caller's own run and at
      stages of the graph; nothing is in flight anywhere; and what the checkpoint and the
      caller consumed fits the limits. */
  ghost predicate Resumable(graph: WorkflowGraph, ledger: Ledger, c: Checkpoint, caller: RunState) {
    && c.schemaVersion == 1
    && c.runId == c.state.runId == caller.runId && c.candidateId == c.state.candidateId == caller.candidateId
    && c.workflowPosition != {} && (forall id | id in c.workflowPosition :: id in graph.stages)
    && caller.budget.reserved == ZERO && c.state.budget.reserved == ZERO && ledger.usage.reserved == ZERO
    && forall k: BudgetKind ::
         c.state.budget.consumed.At(k) <= ledger.limits.At(k) && caller.budget.consumed.At(k) <= ledger.limits.At(k)
  }

  /** A resume begins, at a head whose frontier, sequence and transition count are the
      checkpoint's, if and only if the checkpoint can be resumed; otherwise it is an error
      that leaves caller and ledger alone and seals nothing, and a coherent checkpoint of
      another run or candidate is refused as foreign. */
  lemma ResumeAdmittedIff(graph: WorkflowGraph, step: Stepper, ledger: Ledger, c: Checkpoint, caller: RunState)
    requires ledger.Sound() && Lawful(graph, step)
    ensures Resumable(graph, ledger, c, caller) <==> exists h :: ResumesAt(graph, ledger, c, caller, h)
    ensures forall h | ResumesAt(graph, ledger, c, caller, h) ::
              h.frontier == c.workflowPosition && h.sequence == c.createdAtSequence && h.transitions == Total(c.state.attempts)
              && h.state == c.state.(budget := h.ledger.usage)
    ensures !Resumable(graph, ledger, c, caller) ==>
              var r := Resume(graph, step, ledger, c, caller);
              r.result.Err? && r.state == caller && r.ledger == ledger && r.seals == []
    ensures && c.schemaVersion == 1 && c.runId == c.state.runId && c.candidateId == c.state.candidateId
            && (c.runId != caller.runId || c.candidateId != caller.candidateId)
            ==> Resume(graph, step, ledger, c, caller).result == Err(ForeignCheckpoint)
  {
    FloorFitsIff(ledger, c, caller);
    if ResumeCheck(graph, c, caller).None? && ledger.MergeFloor(Floor(c, caller)).Ok? {
      assert ResumesAt(graph, ledger, c, caller, ResumedHead(c, ledger.MergeFloor(Floor(c, caller)).value));
    }
  }

  lemma FloorFitsIff(ledger: Ledger, c: Checkpoint, caller: RunState)
    ensures Below(Floor(c, caller).consumed, ledger.limits)
            <==> forall k: BudgetKind ::
                   c.state.budget.consumed.At(k) <= ledger.limits.At(k) && caller.budget.consumed.At(k) <= ledger.limits.At(k)
  {
    assert forall k: BudgetKind :: Floor(c, caller).consumed.At(k) == Max(c.state.budget.consumed.At(k), caller.budget.consumed.At(k));
  }
}
