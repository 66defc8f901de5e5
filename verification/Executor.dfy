/** The executor object: the loop of `run` over the shared ledger object, with its
reservation table, its waves and its guards. Every method is proved against the
serial reference, so the theorems about runs apply to what it computes. */
module Executor {
  import opened Common
  import opened Budget
  import opened Workflow
  import opened Serial
  import opened Runs
  import Text

  // ---- helpers of the loop -------------------------------------------------

  /** The iteration order of an ordered set. */
  method SortFrontier(frontier: set<StageId>) returns (ids: seq<StageId>)
    ensures ids == Text.Sorted(frontier)
  {
    var rest := frontier;
    ids := [];
    while rest != {}
      invariant rest <= frontier && Text.Ascending(ids) && |ids| + |rest| == |frontier|
      invariant forall x :: x in ids <==> x in frontier - rest
      invariant forall x, y | x in ids && y in rest :: Text.Less(x, y)
      decreases |rest|
    {
      ghost var smallest := Text.LeastExists(rest);
      var least :| least in rest && forall x | x in rest && x != least :: Text.Less(least, x);
      ids := ids + [least];
      rest := rest - {least};
    }
    Text.AscendingIsUnique(ids, Text.Sorted(frontier));
  }

  /** The checked sum of the attempt counters, in any order. */
  method SumAttempts(attempts: map<StageId, nat>) returns (r: Option<nat>)
    ensures r == if Total(attempts) <= U32_MAX then Some(Total(attempts)) else None
  {
    var rest := attempts;
    var total := 0;
    while rest != map[]
      invariant total + Total(rest) == Total(attempts)
      decreases |rest|
    {
      var id :| id in rest;
      SumOverRemove(rest, id, Identity());
      total := total + rest[id];
      rest := rest - {id};
      if total > U32_MAX {
        return None;
      }
    }
    r := if total <= U32_MAX then Some(total) else None;
  }

  /** A stage's reservation, as its guard holds it. */
  datatype Guard = Guard(reservation: Option<BudgetReservation>)

  /** The guards from `from` on hold live, distinct reservations for their tasks. */
  ghost predicate Live(ledger: BudgetLedger, guards: seq<Guard>, tasks: seq<Task>, from: nat)
    reads ledger
  {
    && |guards| == |tasks|
    && (forall i | from <= i < |guards| ::
          match tasks[i].Admission()
          case None => guards[i].reservation.None?
          case Some(k) =>
            && guards[i].reservation.Some?
            && var r := guards[i].reservation.value;
            r.kind == k && r.amount == 1 && r.id in ledger.reservations && ledger.reservations[r.id] == r)
    && (forall i, j | from <= i < j < |guards| && guards[i].reservation.Some? && guards[j].reservation.Some? ::
          guards[i].reservation.value.id != guards[j].reservation.value.id)
  }

  /** Dropping a guard releases what it still holds. */
  method DropGuards(ledger: BudgetLedger, guards: seq<Guard>, ghost tasks: seq<Task>, from: nat)
    requires ledger.Valid() && Live(ledger, guards, tasks, from) && from <= |guards|
    modifies ledger
    ensures ledger.Valid() && ledger.View() == ReleaseAll(old(ledger.View()), tasks[from..])
  {
    var i := from;
    while i < |guards|
      invariant from <= i <= |guards| && ledger.Valid() && Live(ledger, guards, tasks, i)
      invariant ReleaseAll(old(ledger.View()), tasks[from..]) == ReleaseAll(ledger.View(), tasks[i..])
    {
      assert tasks[i..][1..] == tasks[i + 1..] && tasks[i..][0] == tasks[i];
      if guards[i].reservation.Some? {
        var _ := ledger.Release(guards[i].reservation.value);
      }
      i := i + 1;
    }
    assert tasks[i..] == [];
  }

  /** Admits one stage beside the guards that are already held. */
  method ReserveGuard(ledger: BudgetLedger, task: Task, ghost guards: seq<Guard>, ghost tasks: seq<Task>)
    returns (r: Result<Guard, BudgetError>)
    requires ledger.Valid() && Live(ledger, guards, tasks, 0)
    modifies ledger
    ensures ledger.Valid()
    ensures match task.Admission()
            case None => r.Ok? && ledger.View() == old(ledger.View())
            case Some(k) => old(ledger.View().Reserve(k, 1)) == if r.Ok? then Ok(ledger.View()) else Err(r.error)
    ensures r.Ok? ==> Live(ledger, guards + [r.value], tasks + [task], 0)
    ensures r.Err? ==> ledger.View() == old(ledger.View()) && Live(ledger, guards, tasks, 0)
  {
    match task.Admission() {
      case None => r := Ok(Guard(None));
      case Some(kind) =>
        var reservation := ledger.Reserve(kind, 1);
        if reservation.Err? {
          return Err(reservation.error);
        }
        r := Ok(Guard(Some(reservation.value)));
    }
  }

  lemma HoldsOneMore(before: Ledger, after: Ledger, tasks: seq<Task>, task: Task)
    requires Holds(before, tasks)
    requires match task.Admission() case None => after == before case Some(k) => after == before.Hold(k, 1)
    ensures Holds(after, tasks + [task])
  {
    forall k: BudgetKind
      ensures after.usage.reserved.At(k) == SumBy(tasks + [task], AdmissionFn(k))
    {
      SumByAppend(tasks, task, AdmissionFn(k));
    }
  }

  /** Admits the model and tool calls of the complete frontier, or none of them. */
  method ReserveFrontier(ledger: BudgetLedger, tasks: seq<Task>) returns (r: Result<seq<Guard>, BudgetError>)
    requires ledger.Valid() && ledger.usage.reserved == ZERO
    modifies ledger
    ensures ledger.Valid()
    ensures old(ReserveAll(ledger.View(), tasks)) == if r.Ok? then Ok(ledger.View()) else Err(r.error)
    ensures r.Ok? ==> Live(ledger, r.value, tasks, 0)
    ensures r.Err? ==> ledger.View() == old(ledger.View())
  {
    var guards: seq<Guard> := [];
    var i := 0;
    ghost var start := ledger.View();
    assert tasks[0..] == tasks;
    while i < |tasks|
      invariant 0 <= i <= |tasks| && ledger.Valid() && Live(ledger, guards, tasks[..i], 0)
      invariant ReserveAll(start, tasks) == ReserveAll(ledger.View(), tasks[i..])
      invariant Holds(ledger.View(), tasks[..i])
      invariant ledger.View().(usage := ledger.usage.Settled()) == start
    {
      ghost var before := ledger.View();
      assert tasks[i..][1..] == tasks[i + 1..] && tasks[i..][0] == tasks[i];
      assert tasks[..i + 1] == tasks[..i] + [tasks[i]];
      var guard := ReserveGuard(ledger, tasks[i], guards, tasks[..i]);
      if guard.Err? {
        ReleaseAllSettles(before, tasks[..i]);
        assert tasks[..i][0..] == tasks[..i];
        DropGuards(ledger, guards, tasks[..i], 0);
        return Err(guard.error);
      }
      HoldsOneMore(before, ledger.View(), tasks[..i], tasks[i]);
      guards := guards + [guard.value];
      i := i + 1;
    }
    assert tasks[..i] == tasks && tasks[i..] == [];
    r := Ok(guards);
  }

  /** Scans the frontier for terminal stages and collects the work. */
  method ScanFrontier(graph: WorkflowGraph, ids: seq<StageId>) returns (c: Classified)
    ensures c == Classify(graph, ids, [], None)
  {
    var batch: seq<StageId> := [];
    var success: Option<StageId> := None;
    assert ids[0..] == ids;
    for i := 0 to |ids|
      invariant Classify(graph, ids, [], None) == Classify(graph, ids[i..], batch, success)
    {
      var id := ids[i];
      assert ids[i..][0] == id && ids[i..][1..] == ids[i + 1..];
      if id !in graph.stages {
        return Unknown(id);
      }
      match graph.stages[id].kind {
        case TerminalFailure => return FailureReached;
        case TerminalSuccess => success := Some(id);
        case _ => batch := batch + [id];
      }
    }
    c := Scheduled(batch, success);
  }

  /** Stages attempt counts locally; they merge only when the frontier commits. */
  method StageAttempts(graph: WorkflowGraph, attempts: map<StageId, nat>, transitions: nat, batch: seq<StageId>)
    returns (r: Result<Admitted, Error>)
    requires forall id | id in batch :: id in graph.stages
    ensures r == AdmitAttempts(graph, Admitted([], attempts, transitions), batch)
  {
    var a := Admitted([], attempts, transitions);
    assert batch[0..] == batch;
    for i := 0 to |batch|
      invariant AdmitAttempts(graph, Admitted([], attempts, transitions), batch) == AdmitAttempts(graph, a, batch[i..])
    {
      assert batch[i..][0] == batch[i] && batch[i..][1..] == batch[i + 1..];
      var next := AdmitAttempt(graph, a, batch[i]);
      if next.Err? {
        return Err(next.error);
      }
      a := next.value;
    }
    r := Ok(a);
  }

  // ---- waves ---------------------------------------------------------------

  /** The first poll of a stage future: commit its admission, then call the driver. */
  method PollStage(ledger: BudgetLedger, driver: Driver, guards: seq<Guard>, tasks: seq<Task>, i: nat, snapshot: RunState)
    returns (r: Result<StageOutcome, Error>)
    requires i < |tasks| && ledger.Valid() && Live(ledger, guards, tasks, i)
    modifies ledger
    ensures ledger.Valid() && Live(ledger, guards, tasks, i + 1)
    ensures var started := CommitOne(old(ledger.View()), tasks[i]);
            var reply := driver.Reply(tasks[i], snapshot);
            if !Affordable(started, reply.cost) then ledger.View() == started && r == Err(StageError("budget exhausted"))
            else && ledger.View() == ChargeCost(started, reply.cost)
                 && r == if reply.result.Ok? then Ok(reply.result.value) else Err(StageError(reply.result.error))
  {
    if guards[i].reservation.Some? {
      var _ := ledger.Commit(guards[i].reservation.value, 1);
    }
    var reply := driver.Reply(tasks[i], snapshot);
    if !Affordable(ledger.View(), reply.cost) {
      return Err(StageError("budget exhausted"));
    }
    ledger.ChargeDriver(reply.cost);
    r := if reply.result.Ok? then Ok(reply.result.value) else Err(StageError(reply.result.error));
  }

  /** What the serial reference makes of the stages from an index on. */
  type Remainder = (nat, Ledger) -> StagesResult

  ghost predicate Mirrors(rest: Remainder, driver: Driver, tasks: seq<Task>, snapshot: RunState) {
    forall i: nat, l: Ledger {:trigger RunStages(driver, tasks[i..], snapshot, l)} ::
      i <= |tasks| ==> rest(i, l) == RunStages(driver, tasks[i..], snapshot, l)
  }

  /** Runs one stage; when it fails, the guards of the later stages are dropped. */
  method RunStage(ledger: BudgetLedger, driver: Driver, guards: seq<Guard>, tasks: seq<Task>, i: nat, snapshot: RunState,
                  ghost rest: Remainder)
    returns (r: Result<StageOutcome, Error>)
    requires i < |tasks| && ledger.Valid() && Live(ledger, guards, tasks, i) && Mirrors(rest, driver, tasks, snapshot)
    modifies ledger
    ensures ledger.Valid() && (r.Ok? ==> Live(ledger, guards, tasks, i + 1))
    ensures rest(i, old(ledger.View()))
            == if r.Ok? then Prepend([r.value], rest(i + 1, ledger.View())) else StagesErr(r.error, ledger.View())
  {
    assert tasks[i..][0] == tasks[i] && tasks[i..][1..] == tasks[i + 1..];
    assert rest(i, ledger.View()) == RunStages(driver, tasks[i..], snapshot, ledger.View());
    r := PollStage(ledger, driver, guards, tasks, i, snapshot);
    assert rest(i + 1, ledger.View()) == RunStages(driver, tasks[i + 1..], snapshot, ledger.View());
    if r.Err? {
      DropGuards(ledger, guards, tasks, i + 1);
    }
  }

  function Prepend(outcomes: seq<StageOutcome>, r: StagesResult): StagesResult {
    if r.StagesOk? then r.(outcomes := outcomes + r.outcomes) else r
  }

  lemma PrependAppends(a: seq<StageOutcome>, b: seq<StageOutcome>, r: StagesResult)
    ensures Prepend(a, Prepend(b, r)) == Prepend(a + b, r)
  {
    if r.StagesOk? {
      assert a + (b + r.outcomes) == a + b + r.outcomes;
    }
  }

  /** One wave: the stages from `first` to `end`, here with futures that are ready
      at their first poll. */
  method RunWave(ledger: BudgetLedger, driver: Driver, guards: seq<Guard>, tasks: seq<Task>, snapshot: RunState, first: nat, end: nat,
                 ghost rest: Remainder)
    returns (r: Result<seq<StageOutcome>, Error>)
    requires first <= end <= |tasks| && ledger.Valid() && Live(ledger, guards, tasks, first) && Mirrors(rest, driver, tasks, snapshot)
    modifies ledger
    ensures ledger.Valid() && (r.Ok? ==> Live(ledger, guards, tasks, end))
    ensures rest(first, old(ledger.View()))
            == if r.Ok? then Prepend(r.value, rest(end, ledger.View())) else StagesErr(r.error, ledger.View())
  {
    var outcomes: seq<StageOutcome> := [];
    var i := first;
    while i < end
      invariant first <= i <= end && ledger.Valid() && Live(ledger, guards, tasks, i)
      invariant rest(first, old(ledger.View())) == Prepend(outcomes, rest(i, ledger.View()))
    {
      var outcome := RunStage(ledger, driver, guards, tasks, i, snapshot, rest);
      if outcome.Err? {
        return Err(outcome.error);
      }
      PrependAppends(outcomes, [outcome.value], rest(i + 1, ledger.View()));
      outcomes := outcomes + [outcome.value];
      i := i + 1;
    }
    r := Ok(outcomes);
  }

  /** Runs the frontier in waves of at most `width` stages. */
  method RunWaves(ledger: BudgetLedger, driver: Driver, guards: seq<Guard>, tasks: seq<Task>, snapshot: RunState, width: nat)
    returns (r: Result<seq<StageOutcome>, Error>)
    requires width >= 1 && ledger.Valid() && Live(ledger, guards, tasks, 0)
    modifies ledger
    ensures ledger.Valid()
    ensures RunStages(driver, tasks, snapshot, old(ledger.View()))
            == if r.Ok? then StagesOk(r.value, ledger.View()) else StagesErr(r.error, ledger.View())
  {
    ghost var rest: Remainder := (i: nat, l: Ledger) => if i <= |tasks| then RunStages(driver, tasks[i..], snapshot, l) else StagesOk([], l);
    var outcomes: seq<StageOutcome> := [];
    var first := 0;
    assert tasks[0..] == tasks;
    while first < |tasks|
      invariant 0 <= first <= |tasks| && ledger.Valid() && Live(ledger, guards, tasks, first)
      invariant rest(0, old(ledger.View())) == Prepend(outcomes, rest(first, ledger.View()))
      decreases |tasks| - first
    {
      var end := Min(first + width, |tasks|);
      var wave := RunWave(ledger, driver, guards, tasks, snapshot, first, end, rest);
      if wave.Err? {
        return Err(wave.error);
      }
      PrependAppends(outcomes, wave.value, rest(end, ledger.View()));
      outcomes := outcomes + wave.value;
      first := end;
    }
    assert tasks[first..] == [];
    r := Ok(outcomes);
  }

  // ---- applying ------------------------------------------------------------

  method ApplyOutcomes(ledger: BudgetLedger, graph: WorkflowGraph, first: Draft, tasks: seq<Task>, outcomes: seq<StageOutcome>)
    returns (r: Result<Draft, Error>)
    requires |tasks| == |outcomes| && ledger.Valid() && first.ledger == ledger.View()
    modifies ledger
    ensures ledger.Valid()
    ensures match ApplyAll(graph, first, tasks, outcomes)
            case Ok(d) => r == Ok(d) && d.ledger == ledger.View()
            case Err(f) => r == Err(f.error) && f.ledger == ledger.View()
  {
    var d := first;
    assert tasks[0..] == tasks && outcomes[0..] == outcomes;
    for i := 0 to |tasks|
      invariant ledger.Valid() && d.ledger == ledger.View()
      invariant ApplyAll(graph, first, tasks, outcomes) == ApplyAll(graph, d, tasks[i..], outcomes[i..])
    {
      assert tasks[i..][0] == tasks[i] && tasks[i..][1..] == tasks[i + 1..];
      assert outcomes[i..][0] == outcomes[i] && outcomes[i..][1..] == outcomes[i + 1..];
      var next := ApplyOne(ledger, graph, d, tasks[i], outcomes[i]);
      if next.Err? {
        return Err(next.error);
      }
      d := next.value;
    }
    r := Ok(d);
  }

  method ApplyOne(ledger: BudgetLedger, graph: WorkflowGraph, d: Draft, task: Task, outcome: StageOutcome)
    returns (r: Result<Draft, Error>)
    requires ledger.Valid() && d.ledger == ledger.View()
    modifies ledger
    ensures ledger.Valid() && r == ApplyStage(graph, d, task, outcome)
    ensures ledger.View() == if r.Ok? then r.value.ledger else old(ledger.View())
  {
    var state := ApplyOutcome(d.state, task, outcome, ledger.usage);
    if state.Err? {
      return Err(state.error);
    }
    var available := ledger.Remaining(RepairIterations);
    var selected := Selected(graph, task, Eligible(graph.edges, task, outcome.passed, available > 0));
    if selected.Err? {
      return Err(selected.error);
    }
    var charged := ledger.Consume(RepairIterations, RepairCount(selected.value));
    if charged.Err? {
      return Err(BudgetRefused(charged.error));
    }
    r := Ok(Draft(state.value.(budget := ledger.usage), ledger.View(), d.frontier + Targets(selected.value),
                  d.seal || RequiresCheckpoint(task, outcome), d.patches + outcome.patches));
  }

  // ---- the executor --------------------------------------------------------

  class WorkflowExecutor {
    const graph: WorkflowGraph
    const driver: Driver
    const ledger: BudgetLedger
    var sequence: nat
    /** The checkpoints that the driver sealed, oldest first. */
    var seals: seq<Checkpoint>

    constructor (graph: WorkflowGraph, driver: Driver, ledger: BudgetLedger)
      ensures this.graph == graph && this.driver == driver && this.ledger == ledger && sequence == 0 && seals == []
    {
      this.graph, this.driver, this.ledger := graph, driver, ledger;
      sequence, seals := 0, [];
    }

    /** `stepper` is the reference turn of this executor. */
    ghost predicate Mirrors(stepper: Stepper) {
      forall h: Head {:trigger FrontierStep(graph, driver, h)} :: stepper(h) == FrontierStep(graph, driver, h)
    }

    /** One turn of the loop. */
    method Turn(state: RunState, frontier: set<StageId>, transitions: nat, ghost stepper: Stepper) returns (step: Step)
      requires ledger.Valid() && ledger.usage.reserved == ZERO && Mirrors(stepper)
      modifies ledger
      ensures ledger.Valid()
      ensures step == stepper(Head(state, old(ledger.View()), frontier, sequence, transitions))
      ensures ledger.View() == if step.Ended? then step.ledger else step.head.ledger
    {
      ghost var head := Head(state, ledger.View(), frontier, sequence, transitions);
      assert stepper(head) == FrontierStep(graph, driver, head);
      var ids := SortFrontier(frontier);
      var plan := PlanTurn(ids, state, head);
      if plan.Halt? {
        return Ended(plan.result, plan.state, ledger.View());
      }
      var admitted := StageAttempts(graph, state.attempts, transitions, plan.batch);
      if admitted.Err? {
        return Ended(Err(admitted.error), state, ledger.View());
      }
      step := RunFrontier(state, frontier, transitions, admitted.value, head);
    }

    method PlanTurn(ids: seq<StageId>, state: RunState, ghost head: Head) returns (plan: Plan)
      requires ids == Text.Sorted(head.frontier) && state == head.state
      ensures plan == PlanFrontier(graph, head)
    {
      var c := ScanFrontier(graph, ids);
      match c
      case Unknown(id) => plan := Halt(Err(MissingStage(id)), state);
      case FailureReached => plan := Halt(Ok(RunFailed), state.(currentStages := {}));
      case Scheduled(batch, Some(id)) =>
        plan := if batch != [] then Halt(Err(SuccessWithPendingStages(id)), state)
                else if !Verified(state) then Halt(Err(SuccessUnverified), state)
                else Halt(Ok(Succeeded), state.(currentStages := {}));
      case Scheduled(batch, None) => plan := Go(batch);
    }

    /** Reserve, run the waves, apply, seal, commit. */
    method RunFrontier(state: RunState, frontier: set<StageId>, transitions: nat, a: Admitted, ghost head: Head) returns (step: Step)
      requires ledger.Valid() && ledger.usage.reserved == ZERO
      requires head == Head(state, ledger.View(), frontier, sequence, transitions)
      modifies ledger
      ensures ledger.Valid()
      ensures step == AdmittedStep(graph, driver, head, a)
      ensures ledger.View() == if step.Ended? then step.ledger else step.head.ledger
    {
      var guards := ReserveFrontier(ledger, a.tasks);
      if guards.Err? {
        return Ended(Err(BudgetRefused(guards.error)), state, ledger.View());
      }
      var current := state.(currentStages := frontier);
      var outcomes := RunWaves(ledger, driver, guards.value, a.tasks, current, graph.limits.EffectiveConcurrency());
      current := current.(budget := ledger.usage);
      if outcomes.Err? {
        return Ended(Err(outcomes.error), current, ledger.View());
      }
      RunStagesLength(driver, a.tasks, state.(currentStages := frontier), ReserveAll(head.ledger, a.tasks).value);
      step := FinishFrontier(current, a, outcomes.value, head);
    }

    method FinishFrontier(state: RunState, a: Admitted, outcomes: seq<StageOutcome>, ghost head: Head) returns (step: Step)
      requires ledger.Valid() && |outcomes| == |a.tasks| && head.sequence == sequence
      requires state.budget == ledger.usage
      modifies ledger
      ensures ledger.Valid()
      ensures step == Finish(graph, driver.seals, head, state, a, FirstDraft(state, a.attempts, old(ledger.View())), a.tasks, outcomes)
      ensures ledger.View() == if step.Ended? then step.ledger else step.head.ledger
    {
      var draft := ApplyOutcomes(ledger, graph, FirstDraft(state, a.attempts, ledger.View()), a.tasks, outcomes);
      var settled := state.(budget := ledger.usage);
      if draft.Err? {
        return Ended(Err(draft.error), settled, ledger.View());
      }
      var d := draft.value;
      if sequence + 1 > U64_MAX {
        return Ended(Err(SequenceOverflow), settled, ledger.View());
      }
      if d.seal {
        var checkpoint := SealOf(d, sequence + 1);
        if !driver.seals(checkpoint) {
          return Ended(Err(CheckpointFailed), settled, ledger.View());
        }
        return Committed(NextHead(d, sequence + 1, a.transitions), Some(checkpoint));
      }
      step := Committed(NextHead(d, sequence + 1, a.transitions), None);
    }

    ghost function Stepping(): Stepper { SerialStepper(graph, driver) }

    /** One turn with its effect on the executor: a commit records the seal and
        moves the sequence on. */
    method Advance(here: Head, ghost stepper: Stepper) returns (step: Step)
      requires ledger.Valid() && here.ledger == ledger.View() && here.sequence == sequence
      requires HeadOk(graph, here) && Mirrors(stepper)
      modifies this, ledger
      ensures ledger.Valid() && step == stepper(here)
      ensures step.Ended? ==> ledger.View() == step.ledger && seals == old(seals)
      ensures step.Committed? ==> ledger.View() == step.head.ledger && sequence == step.head.sequence
                                  && seals == old(seals) + AsSeq(step.sealed)
    {
      step := Turn(here.state, here.frontier, here.transitions, stepper);
      if step.Committed? {
        sequence := step.head.sequence;
        seals := seals + AsSeq(step.sealed);
      }
    }

    /** The loop of `run`. It ends, never falls through its end, and computes what
        the reference run computes. */
    method Loop(head: Head, ghost stepper: Stepper) returns (result: Result<TerminalOutcome, Error>, state: RunState)
      requires ledger.Valid() && head.ledger == ledger.View() && head.sequence == sequence
      requires HeadOk(graph, head) && Lawful(graph, stepper) && Mirrors(stepper)
      modifies this, ledger
      ensures ledger.Valid() && old(seals) <= seals
      ensures RunResult(result, state, ledger.View(), seals[|old(seals)|..]) == Runs.Run(graph, stepper, head)
    {
      var here := head;
      ghost var sealed := [];
      while here.frontier != {}
        invariant ledger.Valid() && here.ledger == ledger.View() && here.sequence == sequence && seals == old(seals) + sealed
        invariant HeadOk(graph, here)
        invariant Runs.Run(graph, stepper, head) == Continue(sealed, Runs.Run(graph, stepper, here))
        decreases graph.limits.maximumTransitions - here.transitions
      {
        RunUnrolls(graph, stepper, here, sealed);
        var step := Advance(here, stepper);
        if step.Ended? {
          return step.result, step.state;
        }
        here, sealed := step.head, sealed + AsSeq(step.sealed);
      }
      assert false;
      result, state := Err(EndedWithoutTerminal), here.state;
    }

    method Run(initial: RunState, entry: set<StageId>) returns (result: Result<TerminalOutcome, Error>, state: RunState)
      requires ledger.Valid() && ledger.usage.reserved == ZERO && initial.budget == ledger.usage && entry != {}
      modifies this, ledger
      ensures ledger.Valid() && Lawful(graph, Stepping()) && old(seals) <= seals
      ensures RunResult(result, state, ledger.View(), seals[|old(seals)|..])
              == Launch(graph, Stepping(), initial, old(ledger.View()), entry, old(sequence))
    {
      var count := SumAttempts(initial.attempts);
      if count.None? {
        return Err(TransitionCountOverflow), initial;
      }
      if count.value > graph.limits.maximumTransitions {
        return Err(TransitionCountExceedsLimit), initial;
      }
      result, state := Loop(Head(initial, ledger.View(), entry, sequence, count.value), Stepping());
    }

    /** Runs from the entry stage, above everything the caller already spent. */
    method Execute(caller: RunState) returns (result: Result<TerminalOutcome, Error>, state: RunState)
      requires ledger.Valid() && sequence == 0
      modifies this, ledger
      ensures ledger.Valid() && Lawful(graph, Stepping()) && old(seals) <= seals
      ensures RunResult(result, state, ledger.View(), seals[|old(seals)|..])
              == Runs.Execute(graph, Stepping(), old(ledger.View()), caller)
    {
      ghost var start := ledger.View();
      var merged := ledger.MergeConsumptionFloor(caller.budget);
      if merged.Err? {
        return Err(BudgetRefused(merged.error)), caller;
      }
      result, state := Run(caller.(budget := merged.value), {graph.entry});
    }

    /** Resumes a checkpoint of this run at the frontier it sealed. */
    method Resume(checkpoint: Checkpoint, caller: RunState) returns (result: Result<TerminalOutcome, Error>, state: RunState)
      requires ledger.Valid()
      modifies this, ledger
      ensures ledger.Valid() && Lawful(graph, Stepping()) && old(seals) <= seals
      ensures RunResult(result, state, ledger.View(), seals[|old(seals)|..])
              == Runs.Resume(graph, Stepping(), old(ledger.View()), checkpoint, caller)
    {
      var rejected := ResumeCheck(graph, checkpoint, caller);
      if rejected.Some? {
        return Err(rejected.value), caller;
      }
      var merged := ledger.MergeConsumptionFloor(Floor(checkpoint, caller));
      if merged.Err? {
        return Err(BudgetRefused(merged.error)), caller;
      }
      sequence := checkpoint.createdAtSequence;
      result, state := Run(checkpoint.state.(budget := merged.value), checkpoint.workflowPosition);
    }
  }
}
