/** What every execution of the step machine keeps, and what it leaves behind at
every exit. */
module Schedules {
  import opened Common
  import opened Budget
  import opened Workflow
  import opened Serial
  import opened Waves
  import Text

  lemma StartKeeps(graph: WorkflowGraph, width: nat, initial: Head, m: Machine)
    requires Inv(graph, initial, m) && m.phase.AtHead?
    ensures Inv(graph, initial, Do(graph, width, m, Start))
  {
    var b := Begin(graph, m.committed);
    if b.Started? {
      BeginSpec(graph, m.committed);
      var slots := InitialSlots(b.admitted.tasks);
      forall k: BudgetKind
        ensures SumBy(slots, WaitingFn(k)) == SumBy(b.admitted.tasks, AdmissionFn(k))
      {
        SumByCongruent(slots, WaitingFn(k), b.admitted.tasks, AdmissionFn(k));
      }
      StartedOk(graph, initial, m, b.admitted, b.ledger, slots);
    } else {
      StoppedState(graph, m.committed);
    }
  }

  lemma StartedOk(graph: WorkflowGraph, initial: Head, m: Machine, a: Admitted, ledger: Ledger, slots: seq<Slot>)
    requires Inv(graph, initial, m) && m.phase.AtHead?
    requires Covers(graph, m.committed, Text.Sorted(m.committed.frontier), a, ledger)
    requires slots == InitialSlots(a.tasks) && HoldsWaiting(ledger, slots)
    ensures Inv(graph, initial, m.(state := m.state.(currentStages := m.committed.frontier), ledger := ledger,
                                   phase := InWaves(a, slots, 0)))
  {
  }

  lemma StoppedState(graph: WorkflowGraph, head: Head)
    requires Begin(graph, head).Stop?
    ensures var b := Begin(graph, head);
            && b.state == head.state.(currentStages := b.state.currentStages)
            && (b.result == Ok(Succeeded) ==> Verified(b.state))
  {
    var plan := PlanFrontier(graph, head);
    if plan.Halt? {
      assert Begin(graph, head) == Stop(plan.result, plan.state);
    } else {
      assert Begin(graph, head).state == head.state && Begin(graph, head).result.Err?;
    }
  }

  lemma PollKeeps(graph: WorkflowGraph, width: nat, initial: Head, m: Machine, i: nat)
    requires Inv(graph, initial, m) && Enabled(width, m, Poll(i))
    ensures Inv(graph, initial, Do(graph, width, m, Poll(i)))
  {
    PollAccounts(initial.ledger.usage.consumed, m.ledger, m.phase.slots, i, m.log);
  }

  lemma ChargeKeeps(graph: WorkflowGraph, width: nat, initial: Head, m: Machine, i: nat, k: BudgetKind, n: nat)
    requires Inv(graph, initial, m) && Enabled(width, m, Charge(i, k, n))
    ensures Inv(graph, initial, Do(graph, width, m, Charge(i, k, n)))
  {
    var slot := m.phase.slots[i];
    SlotUpdateKeepsHolds(m.ledger, m.phase.slots, i, slot.(spent := Bump(slot.spent, k, n)));
    AdmissionKeepsSound(m.ledger, k, n);
  }

  lemma ReturnKeeps(graph: WorkflowGraph, width: nat, initial: Head, m: Machine, i: nat, outcome: StageOutcome)
    requires Inv(graph, initial, m) && Enabled(width, m, Return(i, outcome))
    ensures Inv(graph, initial, Do(graph, width, m, Return(i, outcome)))
  {
    SlotUpdateKeepsHolds(m.ledger, m.phase.slots, i, m.phase.slots[i].(status := Returned(outcome)));
  }

  /** Leaving while stages are in flight: unpolled admissions are released, spend stays. */
  lemma LeaveWavesKeeps(graph: WorkflowGraph, initial: Head, m: Machine, exit: Exit)
    requires Inv(graph, initial, m) && m.phase.InWaves? && exit != Finished(Ok(Succeeded))
    ensures Inv(graph, initial, Leave(m, ReleaseWaiting(m.ledger, m.phase.slots), exit))
  {
    ReleaseWaitingSettles(m.ledger, m.phase.slots);
    SettledKeeps(initial.ledger.usage.consumed, m.ledger, m.log);
  }

  /** Leaving with nothing reserved. */
  lemma LeaveSettledKeeps(graph: WorkflowGraph, initial: Head, m: Machine, exit: Exit)
    requires Inv(graph, initial, m) && m.ledger.usage.reserved == ZERO && exit != Finished(Ok(Succeeded))
    ensures Inv(graph, initial, Leave(m, m.ledger, exit))
  {
  }

  lemma JoinKeeps(graph: WorkflowGraph, width: nat, initial: Head, m: Machine)
    requires Inv(graph, initial, m) && Enabled(width, m, Join)
    ensures Inv(graph, initial, Do(graph, width, m, Join))
  {
    forall k: BudgetKind
      ensures m.ledger.usage.reserved.At(k) == 0
    {
      SumByZero(m.phase.slots, WaitingFn(k));
    }
    TallyExtensional(m.ledger.usage.reserved, ZERO);
    assert m.log.history + [] == m.log.history;
  }

  lemma ApplyKeeps(graph: WorkflowGraph, width: nat, initial: Head, m: Machine)
    requires Inv(graph, initial, m) && Enabled(width, m, Apply)
    ensures Inv(graph, initial, Do(graph, width, m, Apply))
  {
    var n := |m.phase.applied|;
    var task, outcome := m.phase.a.tasks[n], m.phase.outcomes[n];
    var r := ApplyStage(graph, m.phase.draft, task, outcome);
    if r.Err? {
      LeaveSettledKeeps(graph, initial, m, Finished(Err(r.error)));
    } else {
      ApplyStageKeeps(graph, m.phase.draft, task, outcome);
      ApplyStageExtends(graph, initial.state, m.phase.draft, task, outcome, m.log.history, m.phase.applied);
      AppliedOk(graph, initial, m, r.value, Done(task, outcome), RepairsTaken(graph, m.phase.draft, task, outcome));
    }
  }

  lemma ApplyStageExtends(graph: WorkflowGraph, initial: RunState, d: Draft, task: Task, outcome: StageOutcome,
                          history: seq<Done>, applied: seq<Done>)
    requires Extends(graph, initial, d.state, history + applied)
    requires task.id in graph.stages && task.definition == graph.stages[task.id]
    requires ApplyStage(graph, d, task, outcome).Ok?
    ensures Extends(graph, initial, ApplyStage(graph, d, task, outcome).value.state, history + (applied + [Done(task, outcome)]))
  {
    ApplyExtends(graph, initial, d.state, task, outcome, d.ledger.usage, history + applied);
    assert history + applied + [Done(task, outcome)] == history + (applied + [Done(task, outcome)]);
  }

  lemma AppliedOk(graph: WorkflowGraph, initial: Head, m: Machine, d: Draft, done: Done, repairs: nat)
    requires Inv(graph, initial, m) && m.phase.Applying? && |m.phase.applied| < |m.phase.a.tasks|
    requires DraftOk(d, m.ledger.limits) && SameRun(m.phase.draft.state, d.state) && d.frontier != {}
    requires forall k: BudgetKind :: d.ledger.usage.consumed.At(k) == m.ledger.usage.consumed.At(k)
                                     + if k.RepairIterations? then repairs else 0
    requires Extends(graph, initial.state, d.state, m.log.history + (m.phase.applied + [done]))
    ensures Inv(graph, initial, m.(ledger := d.ledger, state := m.state.(budget := d.ledger.usage),
                                   phase := Applying(m.phase.a, m.phase.outcomes, d, m.phase.applied + [done]),
                                   log := m.log.(repairs := m.log.repairs + repairs)))
  {
  }

  /** The commit: the draft becomes the next loop head. */
  lemma CommitKeeps(graph: WorkflowGraph, initial: Head, m: Machine, a: Admitted, draft: Draft, applied: seq<Done>, sealed: seq<Checkpoint>)
    requires Inv(graph, initial, m) && Drafting(graph, initial.state, m, a, draft, applied) && |applied| == |a.tasks|
    ensures Inv(graph, initial, CommitDraft(m, a, draft, applied, sealed))
  {
  }

  lemma DecideKeeps(graph: WorkflowGraph, width: nat, initial: Head, m: Machine)
    requires Inv(graph, initial, m) && Enabled(width, m, Decide)
    ensures Inv(graph, initial, Do(graph, width, m, Decide))
  {
    LeaveSettledKeeps(graph, initial, m, Finished(Err(SequenceOverflow)));
    CommitKeeps(graph, initial, m, m.phase.a, m.phase.draft, m.phase.applied, []);
  }

  lemma WaveActionKeeps(graph: WorkflowGraph, width: nat, initial: Head, m: Machine, action: Action)
    requires Inv(graph, initial, m) && Enabled(width, m, action) && m.phase.InWaves?
    ensures Inv(graph, initial, Do(graph, width, m, action))
  {
    match action
    case Poll(i) => PollKeeps(graph, width, initial, m, i);
    case Charge(i, k, n) => ChargeKeeps(graph, width, initial, m, i, k, n);
    case Return(i, outcome) => ReturnKeeps(graph, width, initial, m, i, outcome);
    case Fail(i, message) => LeaveWavesKeeps(graph, initial, m, Finished(Err(StageError(message))));
    case NextWave =>
    case Join => JoinKeeps(graph, width, initial, m);
    case Cancel => LeaveWavesKeeps(graph, initial, m, Cancelled);
  }

  lemma SealKeeps(graph: WorkflowGraph, width: nat, initial: Head, m: Machine, ok: bool)
    requires Inv(graph, initial, m) && Enabled(width, m, Seal(ok))
    ensures Inv(graph, initial, Do(graph, width, m, Seal(ok)))
  {
    if ok {
      CommitKeeps(graph, initial, m, m.phase.a, m.phase.draft, m.phase.applied,
                  [SealOf(m.phase.draft, m.committed.sequence + 1)]);
    } else {
      LeaveSettledKeeps(graph, initial, m, Finished(Err(CheckpointFailed)));
    }
  }

  /** Every action keeps the invariant. */
  lemma {:induction false} StepKeepsInv(graph: WorkflowGraph, width: nat, initial: Head, m: Machine, action: Action)
    requires Inv(graph, initial, m) && Enabled(width, m, action)
    ensures Inv(graph, initial, Do(graph, width, m, action))
  {
    if m.phase.InWaves? {
      WaveActionKeeps(graph, width, initial, m, action);
    } else {
      match action
      case Start => StartKeeps(graph, width, initial, m);
      case Apply => ApplyKeeps(graph, width, initial, m);
      case Decide => DecideKeeps(graph, width, initial, m);
      case Seal(ok) => SealKeeps(graph, width, initial, m, ok);
      case Cancel => LeaveSettledKeeps(graph, initial, m, Cancelled);
    }
  }

  // ---- executions ----------------------------------------------------------

  ghost predicate Possible(graph: WorkflowGraph, width: nat, m: Machine, actions: seq<Action>)
    decreases actions
  {
    actions == [] || (Enabled(width, m, actions[0]) && Possible(graph, width, Do(graph, width, m, actions[0]), actions[1..]))
  }

  ghost function After(graph: WorkflowGraph, width: nat, m: Machine, actions: seq<Action>): Machine
    requires Possible(graph, width, m, actions)
    decreases actions
  {
    if actions == [] then m else After(graph, width, Do(graph, width, m, actions[0]), actions[1..])
  }

  lemma {:induction false} InvAlways(graph: WorkflowGraph, width: nat, initial: Head, m: Machine, actions: seq<Action>)
    requires Inv(graph, initial, m) && Possible(graph, width, m, actions)
    ensures Inv(graph, initial, After(graph, width, m, actions))
    decreases actions
  {
    if actions != [] {
      StepKeepsInv(graph, width, initial, m, actions[0]);
      InvAlways(graph, width, initial, Do(graph, width, m, actions[0]), actions[1..]);
    }
  }

  // ---- what holds over whole runs ------------------------------------------

  /** One for a stage of this kind. */
  function OfKind(kind: StageKind): Task -> nat {
    (t: Task) => if t.definition.kind == kind then 1 else 0
  }

  /** Calls are charged for model and tool stages, and for no others. */
  lemma {:induction false} AdmissionsAreCalls(tasks: seq<Task>)
    ensures SumBy(tasks, AdmissionFn(ModelCalls)) == SumBy(tasks, OfKind(ModelInvocation))
    ensures SumBy(tasks, AdmissionFn(ToolCalls)) == SumBy(tasks, OfKind(ToolInvocation))
    ensures forall k: BudgetKind | k != ModelCalls && k != ToolCalls :: SumBy(tasks, AdmissionFn(k)) == 0
  {
    SumByCongruent(tasks, AdmissionFn(ModelCalls), tasks, OfKind(ModelInvocation));
    SumByCongruent(tasks, AdmissionFn(ToolCalls), tasks, OfKind(ToolInvocation));
    forall k: BudgetKind | k != ModelCalls && k != ToolCalls ensures SumBy(tasks, AdmissionFn(k)) == 0 {
      SumByZero(tasks, AdmissionFn(k));
    }
  }

  /** Exactly-once charging: at every moment of every execution, call and repair
      consumption grew by exactly the model stages started, the tool stages started
      and the repair edges taken. */
  lemma {:induction false} ChargedExactlyOnce(graph: WorkflowGraph, width: nat, head: Head, actions: seq<Action>)
    requires HeadOk(graph, head) && Possible(graph, width, Launched(head), actions)
    ensures var m := After(graph, width, Launched(head), actions);
            && m.ledger.usage.consumed.model == head.ledger.usage.consumed.model + SumBy(m.log.started, OfKind(ModelInvocation))
            && m.ledger.usage.consumed.tool == head.ledger.usage.consumed.tool + SumBy(m.log.started, OfKind(ToolInvocation))
            && m.ledger.usage.consumed.repair == head.ledger.usage.consumed.repair + m.log.repairs
  {
    LaunchedInv(graph, head);
    InvAlways(graph, width, head, Launched(head), actions);
    var m := After(graph, width, Launched(head), actions);
    AccountedByKind(head.ledger.usage.consumed, m.ledger, m.log);
  }

  lemma AccountedByKind(base: Tally, ledger: Ledger, log: Log)
    requires Accounted(base, ledger, log) && log.driver.tool == 0 && log.driver.model == 0 && log.driver.repair == 0
    ensures ledger.usage.consumed.model == base.model + SumBy(log.started, OfKind(ModelInvocation))
    ensures ledger.usage.consumed.tool == base.tool + SumBy(log.started, OfKind(ToolInvocation))
    ensures ledger.usage.consumed.repair == base.repair + log.repairs
  {
    AdmissionsAreCalls(log.started);
    assert ledger.usage.consumed.At(ModelCalls) == base.At(ModelCalls) + Charged(log, ModelCalls);
    assert ledger.usage.consumed.At(ToolCalls) == base.At(ToolCalls) + Charged(log, ToolCalls);
    assert ledger.usage.consumed.At(RepairIterations) == base.At(RepairIterations) + Charged(log, RepairIterations);
  }

  /** A frontier is admitted whole or not at all: it starts exactly if there is room for
      all its model calls and for all its tool calls, and otherwise no stage of it starts
      and nothing is held. */
  lemma AdmittedWholeOrNotAtAll(graph: WorkflowGraph, width: nat, m: Machine, batch: seq<StageId>, a: Admitted)
    requires m.phase.AtHead? && m.ledger == m.committed.ledger && m.ledger.Sound()
    requires PlanFrontier(graph, m.committed) == Go(batch)
    requires AdmitAttempts(graph, Admitted([], m.committed.state.attempts, m.committed.transitions), batch) == Ok(a)
    ensures var t := Do(graph, width, m, Start);
            if RoomForCalls(m.ledger, a.tasks)
            then t.phase == InWaves(a, InitialSlots(a.tasks), 0)
            else t.phase.Over? && t.ledger == m.ledger && t.log == m.log && t.committed == m.committed
  {
    ReserveAllSpec(m.ledger, a.tasks);
    RoomForCallsIff(m.ledger, a.tasks);
  }

  /** What is consumed and reserved leaves room for the calls of all these stages. */
  ghost predicate RoomForCalls(ledger: Ledger, tasks: seq<Task>) {
    && ledger.usage.consumed.model + ledger.usage.reserved.model + SumBy(tasks, OfKind(ModelInvocation)) <= ledger.limits.model
    && ledger.usage.consumed.tool + ledger.usage.reserved.tool + SumBy(tasks, OfKind(ToolInvocation)) <= ledger.limits.tool
  }

  lemma RoomForCallsIff(ledger: Ledger, tasks: seq<Task>)
    requires ledger.Sound()
    ensures RoomForCalls(ledger, tasks) <==> forall k: BudgetKind :: SumBy(tasks, AdmissionFn(k)) <= ledger.Remaining(k)
  {
    AdmissionsAreCalls(tasks);
    assert ledger.usage.consumed.At(ModelCalls) + ledger.usage.reserved.At(ModelCalls) <= ledger.limits.At(ModelCalls);
    assert ledger.usage.consumed.At(ToolCalls) + ledger.usage.reserved.At(ToolCalls) <= ledger.limits.At(ToolCalls);
    assert SumBy(tasks, AdmissionFn(ModelCalls)) <= ledger.Remaining(ModelCalls)
           <==> ledger.usage.consumed.model + ledger.usage.reserved.model + SumBy(tasks, OfKind(ModelInvocation)) <= ledger.limits.model;
    assert SumBy(tasks, AdmissionFn(ToolCalls)) <= ledger.Remaining(ToolCalls)
           <==> ledger.usage.consumed.tool + ledger.usage.reserved.tool + SumBy(tasks, OfKind(ToolInvocation)) <= ledger.limits.tool;
  }

  /** Every exit, be it a result, an error or a cancellation between any two polls,
      leaves nothing reserved, the durable budget equal to the ledger, and the
      caller's state as last committed but for the budget and the displayed
      frontier. */
  lemma {:induction false} EveryExitIsSettled(graph: WorkflowGraph, width: nat, head: Head, actions: seq<Action>)
    requires HeadOk(graph, head) && Possible(graph, width, Launched(head), actions)
    requires After(graph, width, Launched(head), actions).phase.Over?
    ensures var m := After(graph, width, Launched(head), actions);
            && m.ledger.usage.reserved == ZERO
            && m.state.budget == m.ledger.usage
            && m.state == m.committed.state.(budget := m.state.budget, currentStages := m.state.currentStages)
  {
    LaunchedInv(graph, head);
    InvAlways(graph, width, head, Launched(head), actions);
  }

  /** Spend is never forgotten: at every moment the ledger, and at every exit the
      caller's durable budget, shows at least what was consumed before the run. */
  lemma {:induction false} SpendIsNeverForgotten(graph: WorkflowGraph, width: nat, head: Head, actions: seq<Action>)
    requires HeadOk(graph, head) && Possible(graph, width, Launched(head), actions)
    ensures var m := After(graph, width, Launched(head), actions);
            && Below(head.state.budget.consumed, m.ledger.usage.consumed)
            && (m.phase.Over? ==> Below(head.state.budget.consumed, m.state.budget.consumed))
  {
    LaunchedInv(graph, head);
    InvAlways(graph, width, head, Launched(head), actions);
    SpendIsShown(graph, head, After(graph, width, Launched(head), actions));
  }

  lemma SpendIsShown(graph: WorkflowGraph, initial: Head, m: Machine)
    requires Inv(graph, initial, m)
    ensures Below(initial.ledger.usage.consumed, m.ledger.usage.consumed)
    ensures m.phase.Over? ==> m.state.budget == m.ledger.usage
  {
    AccountedIsBelow(initial.ledger.usage.consumed, m.ledger, m.log);
  }

  lemma AccountedIsBelow(base: Tally, ledger: Ledger, log: Log)
    requires Accounted(base, ledger, log)
    ensures Below(base, ledger.usage.consumed)
  {
    forall k: BudgetKind ensures base.At(k) <= ledger.usage.consumed.At(k) {
      assert ledger.usage.consumed.At(k) == base.At(k) + Charged(log, k);
    }
  }

  /** Success safety and monotone history: the committed state is the initial one
      extended by exactly the committed attempts. Every report among them came from a
      trusted verification gate of the graph and belongs to the run, every gate
      attempt added exactly one, and success needs a passing valid last report. */
  lemma {:induction false} CommittedHistory(graph: WorkflowGraph, width: nat, head: Head, actions: seq<Action>)
    requires HeadOk(graph, head) && Possible(graph, width, Launched(head), actions)
    ensures var m := After(graph, width, Launched(head), actions);
            && Extends(graph, head.state, m.committed.state, m.log.history)
            && (m.phase == Over(Finished(Ok(Succeeded))) ==> Verified(m.state))
  {
    LaunchedInv(graph, head);
    InvAlways(graph, width, head, Launched(head), actions);
  }

  /** Transition bound: whatever cycles the graph has, the committed attempts never
      exceed what the limit leaves, and the count is always the sum of the attempts. */
  lemma {:induction false} TransitionsBounded(graph: WorkflowGraph, width: nat, head: Head, actions: seq<Action>)
    requires HeadOk(graph, head) && Possible(graph, width, Launched(head), actions)
    ensures var m := After(graph, width, Launched(head), actions);
            && m.committed.transitions == Total(m.committed.state.attempts) == Total(head.state.attempts) + |m.log.history|
            && m.committed.transitions <= graph.limits.maximumTransitions
            && m.committed.frontier != {}
  {
    LaunchedInv(graph, head);
    InvAlways(graph, width, head, Launched(head), actions);
  }
}
