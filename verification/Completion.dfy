/** Progress of the concurrent executor: with a driver that answers, a run that is not
over can always go on, every step brings its end nearer, and so every schedule that is
not cancelled comes to the end of the serial run. */
module Completion {
  import opened Common
  import opened Budget
  import opened Workflow
  import opened Serial
  import opened Runs
  import opened Waves
  import opened Schedules
  import opened Refinement

  // ---- there is always a next action ---------------------------------------

  /** What a polled stage does next: it charges what it still owes, or fails because that
      does not fit, or returns or fails as the driver replies. */
  lemma StageGoesOn(driver: Driver, width: nat, m: Machine, i: nat) returns (action: Action)
    requires InWave(m.phase, width, i) && m.phase.slots[i].status.Polled? && SlotOk(driver, m.state, m.phase.slots[i])
    ensures Enabled(width, m, action) && Obeys(driver, width, m, action) && !action.Cancel?
  {
    var slot := m.phase.slots[i];
    var reply := driver.Reply(slot.task, m.state);
    if k: BudgetKind :| Owed(driver, m.state, slot, k) > 0 {
      var owed := Owed(driver, m.state, slot, k);
      assert DriverKind(k);
      action := if owed <= m.ledger.Remaining(k) then Charge(i, k, owed) else Fail(i, "");
    } else {
      forall k: BudgetKind ensures slot.spent.At(k) == reply.cost.At(k) {
        assert Owed(driver, m.state, slot, k) == 0;
      }
      TallyExtensional(slot.spent, reply.cost);
      action := if reply.result.Ok? then Return(i, reply.result.value) else Fail(i, reply.result.error);
    }
  }

  lemma WaveGoesOn(driver: Driver, width: nat, m: Machine) returns (action: Action)
    requires width >= 1 && m.phase.InWaves?
    requires forall i | 0 <= i < m.phase.first && i < |m.phase.slots| :: m.phase.slots[i].status.Returned?
    requires forall i | 0 <= i < |m.phase.slots| :: SlotOk(driver, m.state, m.phase.slots[i])
    ensures Enabled(width, m, action) && Obeys(driver, width, m, action) && !action.Cancel?
  {
    if WaveReturned(m.phase, width) {
      action := if m.phase.first + width < |m.phase.slots| then NextWave else Join;
    } else {
      var i: nat :| i < |m.phase.slots| && i < m.phase.first + width && !m.phase.slots[i].status.Returned?;
      if m.phase.slots[i].status.Waiting? {
        action := Poll(i);
      } else {
        action := StageGoesOn(driver, width, m, i);
      }
    }
  }

  /** A run that is not over has an action that its driver takes, other than being
      cancelled. */
  lemma NextAction(graph: WorkflowGraph, width: nat, driver: Driver, step: Stepper, whole: RunResult, initial: Head, m: Machine)
    returns (action: Action)
    requires width >= 1 && Lawful(graph, step) && Inv(graph, initial, m) && RunTrack(graph, driver, step, whole, m)
    requires !m.phase.Over?
    ensures Enabled(width, m, action) && Obeys(driver, width, m, action) && !action.Cancel?
  {
    if m.phase.AtHead? {
      action := Start;
    } else if m.phase.InWaves? {
      action := WaveGoesOn(driver, width, m);
    } else if m.phase.Applying? {
      action := if |m.phase.applied| < |m.phase.outcomes| then Apply else Decide;
    } else {
      action := Seal(driver.seals(SealOf(m.phase.draft, m.committed.sequence + 1)));
    }
  }

  // ---- every action brings the end nearer ----------------------------------

  function OwedTotal(driver: Driver, snapshot: RunState, s: Slot): nat {
    var c := driver.Reply(s.task, snapshot).cost;
    SatSub(c.cpu, s.spent.cpu) + SatSub(c.disk, s.spent.disk) + SatSub(c.input, s.spent.input) + SatSub(c.output, s.spent.output)
    + SatSub(c.tool, s.spent.tool) + SatSub(c.model, s.spent.model) + SatSub(c.cost, s.spent.cost) + SatSub(c.repair, s.spent.repair)
  }

  /** What is left to do for a stage: to be polled, to charge, to answer. */
  function WorkFn(driver: Driver, snapshot: RunState): Slot -> nat {
    (s: Slot) =>
      match s.status
      case Waiting => 2 + OwedTotal(driver, snapshot, s)
      case Polled => 1 + OwedTotal(driver, snapshot, s)
      case Returned(_) => 0
  }

  function PhaseRank(p: Phase): nat {
    match p
    case AtHead => 4
    case InWaves(_, _, _) => 3
    case Applying(_, _, _, _) => 2
    case Sealing(_, _, _) => 1
    case Over(_) => 0
  }

  ghost function InnerRank(driver: Driver, m: Machine): nat {
    match m.phase
    case InWaves(_, slots, first) => SumBy(slots, WorkFn(driver, m.state)) + SatSub(|slots|, first)
    case Applying(_, outcomes, _, applied) => SatSub(|outcomes|, |applied|)
    case _ => 0
  }

  function TransitionsLeft(graph: WorkflowGraph, m: Machine): nat {
    SatSub(graph.limits.maximumTransitions, m.committed.transitions)
  }

  /** Transitions left, then the phase, then the work inside it. */
  ghost predicate Nearer(graph: WorkflowGraph, driver: Driver, n: Machine, m: Machine) {
    || TransitionsLeft(graph, n) < TransitionsLeft(graph, m)
    || (TransitionsLeft(graph, n) == TransitionsLeft(graph, m)
        && (PhaseRank(n.phase) < PhaseRank(m.phase)
            || (PhaseRank(n.phase) == PhaseRank(m.phase) && InnerRank(driver, n) < InnerRank(driver, m))))
  }

  lemma ChargeLowers(driver: Driver, snapshot: RunState, s: Slot, k: BudgetKind, n: nat)
    requires 0 < n <= Owed(driver, snapshot, s, k)
    ensures OwedTotal(driver, snapshot, s.(spent := Bump(s.spent, k, n))) + n == OwedTotal(driver, snapshot, s)
  {
  }

  lemma WaveActionNearer(graph: WorkflowGraph, width: nat, driver: Driver, m: Machine, action: Action)
    requires width >= 1 && m.phase.InWaves? && (action.Poll? || action.Charge? || action.Return? || action.NextWave?)
    requires Enabled(width, m, action) && Obeys(driver, width, m, action)
    ensures Nearer(graph, driver, Do(graph, width, m, action), m)
  {
    var work := WorkFn(driver, m.state);
    var slots := m.phase.slots;
    match action
    case Poll(i) => SumByUpdate(slots, i, slots[i].(status := Polled), work);
    case Charge(i, k, n) =>
      ChargeLowers(driver, m.state, slots[i], k, n);
      SumByUpdate(slots, i, slots[i].(spent := Bump(slots[i].spent, k, n)), work);
    case Return(i, outcome) => SumByUpdate(slots, i, slots[i].(status := Returned(outcome)), work);
    case NextWave =>
  }

  lemma CommitNearer(graph: WorkflowGraph, driver: Driver, m: Machine, a: Admitted, draft: Draft, applied: seq<Done>, sealed: seq<Checkpoint>)
    requires AdmittedOk(graph, m.committed, a)
    ensures Nearer(graph, driver, CommitDraft(m, a, draft, applied, sealed), m)
  {
  }

  lemma PhaseActionNearer(graph: WorkflowGraph, width: nat, driver: Driver, m: Machine, action: Action)
    requires action.Start? || action.Join? || action.Apply? || action.Fail? || action.Cancel?
    requires Enabled(width, m, action)
    ensures Nearer(graph, driver, Do(graph, width, m, action), m)
  {
    if action.Apply? {
      assert Do(graph, width, m, action) == DoApply(graph, m);
    }
  }

  lemma ConcludingActionNearer(graph: WorkflowGraph, width: nat, driver: Driver, m: Machine, action: Action)
    requires (action.Decide? || action.Seal?) && Enabled(width, m, action) && AdmittedOk(graph, m.committed, m.phase.a)
    ensures Nearer(graph, driver, Do(graph, width, m, action), m)
  {
    CommitNearer(graph, driver, m, m.phase.a, m.phase.draft, m.phase.applied, []);
    CommitNearer(graph, driver, m, m.phase.a, m.phase.draft, m.phase.applied, [SealOf(m.phase.draft, m.committed.sequence + 1)]);
  }

  /** Every obeying action brings the end nearer. */
  lemma {:induction false} ActionNearer(graph: WorkflowGraph, width: nat, driver: Driver, initial: Head, m: Machine, action: Action)
    requires width >= 1 && Inv(graph, initial, m) && Enabled(width, m, action) && Obeys(driver, width, m, action)
    ensures Nearer(graph, driver, Do(graph, width, m, action), m)
  {
    if action.Poll? || action.Charge? || action.Return? || action.NextWave? {
      WaveActionNearer(graph, width, driver, m, action);
    } else if action.Decide? || action.Seal? {
      ConcludingActionNearer(graph, width, driver, m, action);
    } else {
      PhaseActionNearer(graph, width, driver, m, action);
    }
  }

  /** No schedule goes on for ever. */
  lemma {:induction false} NoEndlessSchedule(graph: WorkflowGraph, width: nat, driver: Driver, initial: Head,
                                             machines: nat -> Machine, actions: nat -> Action, i: nat)
    requires width >= 1 && Inv(graph, initial, machines(i))
    requires forall j | i <= j :: Enabled(width, machines(j), actions(j)) && Obeys(driver, width, machines(j), actions(j))
                                  && machines(j + 1) == Do(graph, width, machines(j), actions(j))
    ensures false
    decreases TransitionsLeft(graph, machines(i)), PhaseRank(machines(i).phase), InnerRank(driver, machines(i))
  {
    ActionNearer(graph, width, driver, initial, machines(i), actions(i));
    StepKeepsInv(graph, width, initial, machines(i), actions(i));
    NoEndlessSchedule(graph, width, driver, initial, machines, actions, i + 1);
  }

  // ---- every schedule comes to the serial end ------------------------------

  ghost predicate NotCancelled(actions: seq<Action>) { forall i | 0 <= i < |actions| :: !actions[i].Cancel? }

  /** A schedule that nothing but a cancellation could continue. */
  ghost predicate Maximal(graph: WorkflowGraph, width: nat, driver: Driver, m: Machine) {
    forall action: Action | Enabled(width, m, action) && Obeys(driver, width, m, action) :: action.Cancel?
  }

  lemma {:induction false} NeverCancelled(graph: WorkflowGraph, width: nat, m: Machine, actions: seq<Action>)
    requires Possible(graph, width, m, actions) && NotCancelled(actions) && m.phase != Over(Cancelled)
    ensures After(graph, width, m, actions).phase != Over(Cancelled)
    decreases actions
  {
    if actions != [] {
      NeverCancelled(graph, width, Do(graph, width, m, actions[0]), actions[1..]);
    }
  }

  /** Every maximal schedule without cancellation ends, and ends as the serial run does. */
  lemma {:induction false} MaximalScheduleIsComplete(graph: WorkflowGraph, width: nat, driver: Driver, head: Head, actions: seq<Action>)
    requires width >= 1 && HeadOk(graph, head)
    requires Possible(graph, width, Launched(head), actions) && ObeysAll(graph, width, driver, Launched(head), actions)
    requires NotCancelled(actions) && Maximal(graph, width, driver, After(graph, width, Launched(head), actions))
    ensures var m := After(graph, width, Launched(head), actions);
            && m.phase.Over? && m.phase.exit.Finished?
            && SameEnd(Run(graph, SerialStepper(graph, driver), head), m.phase.exit.result, m)
  {
    var step := SerialStepper(graph, driver);
    var whole := Run(graph, step, head);
    var m := After(graph, width, Launched(head), actions);
    StepperIsSerial(graph, driver);
    LaunchedOnRun(graph, driver, step, head);
    StaysOnRun(graph, width, driver, step, whole, head, Launched(head), actions);
    NeverCancelled(graph, width, Launched(head), actions);
    if !m.phase.Over? {
      var action := NextAction(graph, width, driver, step, whole, head, m);
    }
  }

  /** One step forward, on the track of the serial run. */
  lemma StepForward(graph: WorkflowGraph, width: nat, driver: Driver, step: Stepper, whole: RunResult, initial: Head, m: Machine)
    returns (action: Action)
    requires width >= 1 && Serially(graph, driver, step) && Inv(graph, initial, m) && RunTrack(graph, driver, step, whole, m)
    requires !m.phase.Over?
    ensures Enabled(width, m, action) && Obeys(driver, width, m, action) && !action.Cancel?
    ensures Nearer(graph, driver, Do(graph, width, m, action), m) && Do(graph, width, m, action).phase != Over(Cancelled)
    ensures Inv(graph, initial, Do(graph, width, m, action))
    ensures RunTrack(graph, driver, step, whole, Do(graph, width, m, action))
  {
    action := NextAction(graph, width, driver, step, whole, initial, m);
    ActionNearer(graph, width, driver, initial, m, action);
    StepKeepsInv(graph, width, initial, m, action);
    StepOnRun(graph, width, driver, step, whole, initial, m, action);
    OnlyCancelCancels(graph, width, m, action);
  }

  lemma OnlyCancelCancels(graph: WorkflowGraph, width: nat, m: Machine, action: Action)
    requires Enabled(width, m, action) && !action.Cancel? && m.phase != Over(Cancelled)
    ensures Do(graph, width, m, action).phase != Over(Cancelled)
  {
  }

  lemma Prepended(graph: WorkflowGraph, width: nat, driver: Driver, m: Machine, action: Action, rest: seq<Action>)
    requires Enabled(width, m, action) && Obeys(driver, width, m, action) && !action.Cancel?
    requires var n := Do(graph, width, m, action); Possible(graph, width, n, rest) && ObeysAll(graph, width, driver, n, rest)
    requires NotCancelled(rest)
    ensures var actions := [action] + rest;
            && Possible(graph, width, m, actions) && ObeysAll(graph, width, driver, m, actions) && NotCancelled(actions)
            && After(graph, width, m, actions) == After(graph, width, Do(graph, width, m, action), rest)
  {
    var actions := [action] + rest;
    assert actions[0] == action && actions[1..] == rest;
  }

  /** Every schedule under way can be completed without cancellation. */
  lemma {:induction false} CanBeCompleted(graph: WorkflowGraph, width: nat, driver: Driver, step: Stepper, whole: RunResult, initial: Head, m: Machine)
    returns (actions: seq<Action>)
    requires width >= 1 && Serially(graph, driver, step) && Inv(graph, initial, m) && RunTrack(graph, driver, step, whole, m)
    requires m.phase != Over(Cancelled)
    ensures Possible(graph, width, m, actions) && ObeysAll(graph, width, driver, m, actions) && NotCancelled(actions)
    ensures var n := After(graph, width, m, actions);
            n.phase.Over? && n.phase.exit.Finished? && SameEnd(whole, n.phase.exit.result, n)
    decreases TransitionsLeft(graph, m), PhaseRank(m.phase), InnerRank(driver, m)
  {
    if m.phase.Over? {
      actions := [];
    } else {
      var action := StepForward(graph, width, driver, step, whole, initial, m);
      var rest := CanBeCompleted(graph, width, driver, step, whole, initial, Do(graph, width, m, action));
      Prepended(graph, width, driver, m, action, rest);
      actions := [action] + rest;
    }
  }

  /** Every maximal schedule of a resumed run that is not cancelled ends as the rest of the
      uninterrupted run does. */
  lemma {:induction false} ResumedScheduleCompletes(graph: WorkflowGraph, width: nat, driver: Driver, head: Head, i: nat, caller: RunState,
                                                    resumed: Head, actions: seq<Action>)
    requires width >= 1 && Resumes(graph, SerialStepper(graph, driver), head, i, caller, resumed)
    requires Possible(graph, width, Launched(resumed), actions) && ObeysAll(graph, width, driver, Launched(resumed), actions)
    requires NotCancelled(actions) && Maximal(graph, width, driver, After(graph, width, Launched(resumed), actions))
    ensures var whole := Run(graph, SerialStepper(graph, driver), head);
            var m := After(graph, width, Launched(resumed), actions);
            m.phase.Over? && m.phase.exit.Finished? && SameEnd(whole.(seals := whole.seals[i + 1..]), m.phase.exit.result, m)
  {
    ResumedHeadContinues(graph, SerialStepper(graph, driver), head, i, caller, resumed);
    MaximalScheduleIsComplete(graph, width, driver, resumed, actions);
  }
}
