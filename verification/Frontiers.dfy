/** What the outcomes of a whole frontier do, told on its inputs: when they are applied, the
next frontier, whether a checkpoint is due, and the state and ledger afterwards. */
module Frontiers {
  import opened Common
  import opened Budget
  import opened Workflow
  import opened Serial
  import opened Transitions

  // ---- the whole frontier --------------------------------------------------

  /** A frontier whose stages have all returned, with the state and the ledger that their
      outcomes are applied to. */
  datatype Turn = Turn(graph: WorkflowGraph, tasks: seq<Task>, outcomes: seq<StageOutcome>, state: RunState, ledger: Ledger) {
    ghost predicate Matched() { |tasks| == |outcomes| }

    /** The repair iterations left when the outcome of stage `i` is applied. */
    ghost function Room(i: nat): nat
      requires Matched() && i <= |tasks|
    {
      if i == 0 then RoomOf(ledger)
      else if Room(i - 1) > 0 && TakesRepair(graph, tasks[i - 1], outcomes[i - 1].passed, true) then Room(i - 1) - 1
      else Room(i - 1)
    }

    /** The plan when the outcome of stage `i` is applied: the last one proposed before. */
    ghost function PlanAt(i: nat): Option<EngineeringPlan>
      requires i <= |outcomes|
    {
      if i == 0 then state.plan
      else if outcomes[i - 1].plan.Some? then outcomes[i - 1].plan
      else PlanAt(i - 1)
    }

    /** Stage `i` takes an edge to `id`. */
    ghost predicate Reaches(i: nat, id: StageId)
      requires Matched()
    {
      i < |tasks| && LeadsTo(graph, tasks[i], outcomes[i].passed, Room(i) > 0, id)
    }

    ghost predicate Seals(i: nat)
      requires Matched()
    {
      i < |tasks| && AsksForSeal(tasks[i], outcomes[i])
    }

    /** The outcome of stage `i` is admissible and the stage may go on. */
    ghost predicate Fits(i: nat)
      requires Matched()
    {
      i < |tasks| && Admissible(state, PlanAt(i), tasks[i], outcomes[i]) && GoesOn(graph, tasks[i], outcomes[i].passed, Room(i) > 0)
    }

    /** The state after the first `k` outcomes: theirs are added in order. */
    ghost function StateAt(k: nat, usage: BudgetUsage): RunState
      requires k <= |outcomes|
    {
      state.(plan := PlanAt(k), patches := state.patches + Gather(outcomes[..k], PatchesOf()),
             failureEvidence := state.failureEvidence + Gather(outcomes[..k], FailuresOf()),
             verification := state.verification + Gather(outcomes[..k], ReportsOf()), budget := usage)
    }

    /** The stages that the edges taken by the first `k` stages lead to, and whether one of
        these stages asks for a checkpoint. */
    ghost predicate Edges(k: nat, d: Draft)
      requires Matched() && k <= |tasks|
    {
      && (forall id :: id in d.frontier <==> exists i: nat :: i < k && ReachesFn(this)(i, id))
      && (d.seal <==> exists i: nat :: i < k && Seals(i))
    }

    ghost predicate Values(k: nat, d: Draft)
      requires Matched() && k <= |tasks|
    {
      && d.patches == Gather(outcomes[..k], PatchesOf())
      && Room(k) <= RoomOf(ledger) && d.ledger == ledger.Spend(RepairIterations, RoomOf(ledger) - Room(k))
      && d.state == StateAt(k, d.ledger.usage)
    }
  }

  function PatchesOf(): StageOutcome -> seq<ArtifactRef> { (o: StageOutcome) => o.patches }

  function FailuresOf(): StageOutcome -> seq<FailureEvidence> { (o: StageOutcome) => o.failures }

  function ReportsOf(): StageOutcome -> seq<VerificationReport> {
    (o: StageOutcome) => if o.verification.Some? then [o.verification.value] else []
  }

  lemma {:induction false} RoomFalls(t: Turn, k: nat)
    requires t.Matched() && k <= |t.tasks|
    ensures t.Room(k) <= RoomOf(t.ledger)
  {
    if k > 0 {
      RoomFalls(t, k - 1);
    }
  }

  lemma GatherUpTo<T>(outcomes: seq<StageOutcome>, k: nat, f: StageOutcome -> seq<T>)
    requires k < |outcomes|
    ensures Gather(outcomes[..k + 1], f) == Gather(outcomes[..k], f) + f(outcomes[k])
  {
    assert outcomes[..k + 1] == outcomes[..k] + [outcomes[k]];
    GatherLast(outcomes[..k], outcomes[k], f);
  }

  lemma SpendTwice(l: Ledger, n: nat)
    ensures l.Spend(RepairIterations, n).Spend(RepairIterations, 1) == l.Spend(RepairIterations, n + 1)
    ensures l.Spend(RepairIterations, 0) == l
    ensures n <= RoomOf(l) ==> RoomOf(l.Spend(RepairIterations, n)) == RoomOf(l) - n
  {
  }

  ghost function ReachesFn(t: Turn): (nat, StageId) -> bool
    requires t.Matched()
  {
    (i: nat, id: StageId) => t.Reaches(i, id)
  }

  lemma ReachesStep(p: (nat, StageId) -> bool, k: nat, before: set<StageId>, after: set<StageId>)
    requires forall id :: id in before <==> exists i: nat :: i < k && p(i, id)
    requires forall id :: id in after <==> id in before || p(k, id)
    ensures forall id :: id in after <==> exists i: nat :: i < k + 1 && p(i, id)
  {
    forall id ensures id in after <==> exists i: nat :: i < k + 1 && p(i, id) {
      assert id in before || p(k, id) <==> exists i: nat :: i < k + 1 && p(i, id);
    }
  }

  lemma SealsStep(t: Turn, k: nat, before: bool, after: bool)
    requires t.Matched() && k < |t.tasks|
    requires before <==> exists i: nat :: i < k && t.Seals(i)
    requires after <==> before || AsksForSeal(t.tasks[k], t.outcomes[k])
    ensures after <==> exists i: nat :: i < k + 1 && t.Seals(i)
  {
    assert after <==> before || t.Seals(k);
  }

  lemma ReachesNow(t: Turn, k: nat, d: Draft, n: Draft)
    requires t.Matched() && k < |t.tasks|
    requires RoomOf(d.ledger) == t.Room(k) && Adds(t.graph, d, t.tasks[k], t.outcomes[k], n)
    ensures forall id :: id in n.frontier <==> id in d.frontier || ReachesFn(t)(k, id)
    ensures n.seal <==> d.seal || AsksForSeal(t.tasks[k], t.outcomes[k])
  {
    assert forall id :: ReachesFn(t)(k, id) <==> LeadsTo(t.graph, t.tasks[k], t.outcomes[k].passed, RoomOf(d.ledger) > 0, id);
  }

  lemma EdgesStep(t: Turn, k: nat, d: Draft, n: Draft)
    requires t.Matched() && k < |t.tasks| && t.Edges(k, d)
    requires RoomOf(d.ledger) == t.Room(k) && Adds(t.graph, d, t.tasks[k], t.outcomes[k], n)
    ensures t.Edges(k + 1, n)
  {
    ReachesNow(t, k, d, n);
    ReachesStep(ReachesFn(t), k, d.frontier, n.frontier);
    SealsStep(t, k, d.seal, n.seal);
  }

  lemma ValuesStep(t: Turn, k: nat, d: Draft, n: Draft)
    requires t.Matched() && k < |t.tasks| && t.Values(k, d)
    requires RoomOf(d.ledger) == t.Room(k) && Adds(t.graph, d, t.tasks[k], t.outcomes[k], n)
    ensures t.Values(k + 1, n) && RoomOf(n.ledger) == t.Room(k + 1)
  {
    RoomFalls(t, k);
    GatherUpTo(t.outcomes, k, PatchesOf());
    GatherUpTo(t.outcomes, k, FailuresOf());
    GatherUpTo(t.outcomes, k, ReportsOf());
    RepairNeedsRoom(t.graph, t.tasks[k], t.outcomes[k].passed);
    SpendTwice(t.ledger, RoomOf(t.ledger) - t.Room(k));
    SpendTwice(d.ledger, 1);
    GrownTwice(t, k, d.ledger.usage, n.ledger.usage);
  }

  lemma GrownTwice(t: Turn, k: nat, before: BudgetUsage, after: BudgetUsage)
    requires t.Matched() && k < |t.tasks|
    ensures Grown(t.StateAt(k, before), t.outcomes[k], after) == t.StateAt(k + 1, after)
  {
    GatherUpTo(t.outcomes, k, PatchesOf());
    GatherUpTo(t.outcomes, k, FailuresOf());
    GatherUpTo(t.outcomes, k, ReportsOf());
  }

  /** The draft is what the first `k` outcomes make of the frontier. */
  ghost predicate Drafted(t: Turn, k: nat, d: Draft)
    requires t.Matched() && k <= |t.tasks|
  {
    t.Edges(k, d) && t.Values(k, d) && RoomOf(d.ledger) == t.Room(k)
  }

  lemma AppliesOnce(t: Turn, k: nat, d: Draft)
    requires t.Matched() && k < |t.tasks| && Drafted(t, k, d)
    ensures var r := ApplyStage(t.graph, d, t.tasks[k], t.outcomes[k]);
            (r.Ok? <==> t.Fits(k)) && (r.Ok? ==> Drafted(t, k + 1, r.value))
  {
    StageAppliedIff(t.graph, d, t.tasks[k], t.outcomes[k]);
    var r := ApplyStage(t.graph, d, t.tasks[k], t.outcomes[k]);
    if r.Ok? {
      StageApplied(t.graph, d, t.tasks[k], t.outcomes[k]);
      EdgesStep(t, k, d, r.value);
      ValuesStep(t, k, d, r.value);
    }
  }

  /** The outcome at `k` is applied to the draft exactly if it fits, and makes the next
      draft. */
  ghost predicate AppliesAt(graph: WorkflowGraph, tasks: seq<Task>, outcomes: seq<StageOutcome>,
                            fits: nat -> bool, drafted: (nat, Draft) -> bool, k: nat, d: Draft)
    requires k < |tasks| == |outcomes|
  {
    var r := ApplyStage(graph, d, tasks[k], outcomes[k]);
    (r.Ok? <==> fits(k)) && (r.Ok? ==> drafted(k + 1, r.value))
  }

  /** The first outcome from `k` on that does not fit is the one at `j`, met by this draft. */
  ghost predicate StopsAt(n: nat, fits: nat -> bool, drafted: (nat, Draft) -> bool, k: nat, j: nat, e: Draft) {
    k <= j < n && !fits(j) && drafted(j, e) && forall i: nat | k <= i < j :: fits(i)
  }

  lemma AppliesNext(graph: WorkflowGraph, tasks: seq<Task>, outcomes: seq<StageOutcome>, k: nat, d: Draft)
    requires k < |tasks| == |outcomes|
    ensures ApplyAll(graph, d, tasks[k..], outcomes[k..])
            == match ApplyStage(graph, d, tasks[k], outcomes[k])
               case Err(e) => Err(ApplyFailure(e, d.ledger))
               case Ok(next) => ApplyAll(graph, next, tasks[k + 1..], outcomes[k + 1..])
  {
    assert tasks[k..][0] == tasks[k] && outcomes[k..][0] == outcomes[k];
    assert tasks[k..][1..] == tasks[k + 1..] && outcomes[k..][1..] == outcomes[k + 1..];
  }

  lemma {:induction false} AppliesFrom(graph: WorkflowGraph, tasks: seq<Task>, outcomes: seq<StageOutcome>,
                                       fits: nat -> bool, drafted: (nat, Draft) -> bool, k: nat, d: Draft)
    requires |tasks| == |outcomes| && k <= |tasks| && drafted(k, d)
    requires forall i: nat, e: Draft | i < |tasks| && drafted(i, e) :: AppliesAt(graph, tasks, outcomes, fits, drafted, i, e)
    ensures var r := ApplyAll(graph, d, tasks[k..], outcomes[k..]);
            (r.Ok? <==> forall i: nat | k <= i < |tasks| :: fits(i)) && (r.Ok? ==> drafted(|tasks|, r.value))
    ensures var r := ApplyAll(graph, d, tasks[k..], outcomes[k..]);
            r.Err? ==> exists j: nat, e: Draft :: StopsAt(|tasks|, fits, drafted, k, j, e) && r.error.ledger == e.ledger
    decreases |tasks| - k
  {
    if k < |tasks| {
      AppliesNext(graph, tasks, outcomes, k, d);
      assert AppliesAt(graph, tasks, outcomes, fits, drafted, k, d);
      var r := ApplyStage(graph, d, tasks[k], outcomes[k]);
      if r.Ok? {
        AppliesFrom(graph, tasks, outcomes, fits, drafted, k + 1, r.value);
        var rest := ApplyAll(graph, r.value, tasks[k + 1..], outcomes[k + 1..]);
        if rest.Err? {
          var j: nat, e: Draft :| StopsAt(|tasks|, fits, drafted, k + 1, j, e) && rest.error.ledger == e.ledger;
          assert StopsAt(|tasks|, fits, drafted, k, j, e);
        }
      } else {
        assert StopsAt(|tasks|, fits, drafted, k, k, d);
      }
    }
  }

  ghost function FitsFn(t: Turn): nat -> bool
    requires t.Matched()
  {
    (i: nat) => t.Fits(i)
  }

  ghost function DraftedFn(t: Turn): (nat, Draft) -> bool
    requires t.Matched()
  {
    (k: nat, d: Draft) => k <= |t.tasks| && Drafted(t, k, d)
  }

  lemma TurnAppliesAt(t: Turn, k: nat, d: Draft)
    requires t.Matched() && k < |t.tasks| && DraftedFn(t)(k, d)
    ensures AppliesAt(t.graph, t.tasks, t.outcomes, FitsFn(t), DraftedFn(t), k, d)
  {
    AppliesOnce(t, k, d);
  }

  lemma FirstDrafted(t: Turn)
    requires t.Matched()
    ensures DraftedFn(t)(0, FirstDraft(t.state, t.state.attempts, t.ledger))
  {
    var d := FirstDraft(t.state, t.state.attempts, t.ledger);
    SpendTwice(t.ledger, 0);
    assert t.outcomes[..0] == [];
    assert d.state == t.StateAt(0, t.ledger.usage);
    assert t.Values(0, d);
    assert t.Edges(0, d);
  }

  /** The outcomes of a frontier are applied exactly if each is admissible and each stage
      may go on. The next frontier is then every stage that some edge taken leads to, a
      checkpoint is due exactly if one stage asks for it, and state and ledger have grown
      by what the outcomes hold and by one repair iteration per repair edge taken. */
  lemma TurnApplies(t: Turn)
    requires t.Matched()
    ensures var r := ApplyAll(t.graph, FirstDraft(t.state, t.state.attempts, t.ledger), t.tasks, t.outcomes);
            && (r.Ok? <==> forall i: nat | i < |t.tasks| :: FitsFn(t)(i))
            && (r.Ok? ==> Drafted(t, |t.tasks|, r.value))
            && (r.Err? ==> exists j: nat, e: Draft :: StopsAt(|t.tasks|, FitsFn(t), DraftedFn(t), 0, j, e) && r.error.ledger == e.ledger)
  {
    var d := FirstDraft(t.state, t.state.attempts, t.ledger);
    assert t.tasks[0..] == t.tasks && t.outcomes[0..] == t.outcomes;
    FirstDrafted(t);
    forall k: nat, e: Draft | k < |t.tasks| && DraftedFn(t)(k, e)
      ensures AppliesAt(t.graph, t.tasks, t.outcomes, FitsFn(t), DraftedFn(t), k, e)
    {
      TurnAppliesAt(t, k, e);
    }
    AppliesFrom(t.graph, t.tasks, t.outcomes, FitsFn(t), DraftedFn(t), 0, d);
  }

  /** A refused outcome keeps the charges of the repair edges taken before it, and no
      others. */
  lemma RefusedKeepsRepairs(t: Turn) returns (j: nat)
    requires t.Matched() && ApplyAll(t.graph, FirstDraft(t.state, t.state.attempts, t.ledger), t.tasks, t.outcomes).Err?
    ensures j < |t.tasks| && !t.Fits(j) && forall i: nat | i < j :: t.Fits(i)
    ensures t.Room(j) <= RoomOf(t.ledger)
            && ApplyAll(t.graph, FirstDraft(t.state, t.state.attempts, t.ledger), t.tasks, t.outcomes).error.ledger
               == t.ledger.Spend(RepairIterations, RoomOf(t.ledger) - t.Room(j))
  {
    TurnApplies(t);
    var e: Draft;
    j, e :| StopsAt(|t.tasks|, FitsFn(t), DraftedFn(t), 0, j, e)
            && ApplyAll(t.graph, FirstDraft(t.state, t.state.attempts, t.ledger), t.tasks, t.outcomes).error.ledger == e.ledger;
    StoppedLedger(t, j, e);
  }

  lemma StoppedLedger(t: Turn, j: nat, e: Draft)
    requires t.Matched() && StopsAt(|t.tasks|, FitsFn(t), DraftedFn(t), 0, j, e)
    ensures !t.Fits(j) && forall i: nat | i < j :: t.Fits(i)
    ensures t.Room(j) <= RoomOf(t.ledger) && e.ledger == t.ledger.Spend(RepairIterations, RoomOf(t.ledger) - t.Room(j))
  {
    assert DraftedFn(t)(j, e) && !FitsFn(t)(j);
    DraftedLedger(t, j, e);
    forall i: nat | i < j ensures t.Fits(i) {
      assert FitsFn(t)(i);
    }
  }

  lemma DraftedLedger(t: Turn, j: nat, e: Draft)
    requires t.Matched() && DraftedFn(t)(j, e)
    ensures j <= |t.tasks| && t.Room(j) <= RoomOf(t.ledger) && e.ledger == t.ledger.Spend(RepairIterations, RoomOf(t.ledger) - t.Room(j))
  {
    assert Drafted(t, j, e) && t.Values(j, e);
  }
}
