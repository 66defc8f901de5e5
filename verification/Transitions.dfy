/** What one stage does to its frontier, told on its inputs: which outcomes are accepted,
which edges are taken and where they lead. */
module Transitions {
  import opened Common
  import opened Budget
  import opened Workflow
  import Text

  // ---- edges ---------------------------------------------------------------

  /** The edge leaves this stage and its condition holds, written out. */
  predicate Open(e: TransitionRule, task: Task, passed: bool, repairLeft: bool) {
    && e.from == task.id
    && (|| e.condition == Always
        || (e.condition == StagePassed && passed)
        || (e.condition == StageFailed && !passed)
        || (e.condition == BudgetRemaining && repairLeft)
        || (e.condition == HumanApproved && task.definition.kind == HumanApprovalGate && passed))
  }

  /** The `j`th edge is taken: every open edge of a fan-out, otherwise the earliest open
      edge of least priority. */
  ghost predicate Taken(graph: WorkflowGraph, task: Task, passed: bool, repairLeft: bool, j: nat) {
    && j < |graph.edges| && Open(graph.edges[j], task, passed, repairLeft)
    && (|| task.definition.kind == ParallelFanOut
        || forall k | 0 <= k < |graph.edges| && Open(graph.edges[k], task, passed, repairLeft) ::
             graph.edges[j].priority < graph.edges[k].priority || (graph.edges[j].priority == graph.edges[k].priority && j <= k))
  }

  /** `kept` are the elements of `s` that pass the test, in order; `at` says where they
      stand. */
  ghost predicate Places<T>(at: seq<nat>, s: seq<T>, kept: seq<T>, test: T -> bool) {
    && |at| == |kept| && (forall i | 0 <= i < |at| :: at[i] < |s| && s[at[i]] == kept[i] && test(kept[i]))
    && (forall i, k | 0 <= i < k < |at| :: at[i] < at[k])
    && (forall j | 0 <= j < |s| && test(s[j]) :: j in at)
  }

  function Moved(at: seq<nat>): (r: seq<nat>)
    ensures |r| == |at| && forall i | 0 <= i < |r| :: r[i] == at[i] + 1
  {
    seq(|at|, i requires 0 <= i < |at| => at[i] + 1)
  }

  lemma MovedPlaces<T>(at: seq<nat>, s: seq<T>, kept: seq<T>, test: T -> bool, j: nat)
    requires s != [] && Places(at, s[1..], kept, test) && 0 < j < |s| && test(s[j])
    ensures j in Moved(at)
  {
    assert s[1..][j - 1] == s[j];
    var i :| 0 <= i < |at| && at[i] == j - 1;
    assert Moved(at)[i] == j;
  }

  lemma PlacesSkip<T>(at: seq<nat>, s: seq<T>, kept: seq<T>, test: T -> bool)
    requires s != [] && Places(at, s[1..], kept, test) && !test(s[0])
    ensures Places(Moved(at), s, kept, test)
  {
    forall j | 0 <= j < |s| && test(s[j]) ensures j in Moved(at) {
      MovedPlaces(at, s, kept, test, j);
    }
  }

  lemma PlacesTake<T>(at: seq<nat>, s: seq<T>, kept: seq<T>, test: T -> bool)
    requires s != [] && Places(at, s[1..], kept, test) && test(s[0])
    ensures Places([0] + Moved(at), s, [s[0]] + kept, test)
  {
    GrownPlaces(at, s, kept, test);
    forall j | 0 <= j < |s| && test(s[j]) ensures j in [0] + Moved(at) {
      if j > 0 {
        MovedPlaces(at, s, kept, test, j);
      }
    }
  }

  lemma GrownPlaces<T>(at: seq<nat>, s: seq<T>, kept: seq<T>, test: T -> bool)
    requires s != [] && Places(at, s[1..], kept, test) && test(s[0])
    ensures var grown := [0] + Moved(at);
            && |grown| == |kept| + 1
            && (forall i | 0 <= i < |grown| :: grown[i] < |s| && s[grown[i]] == ([s[0]] + kept)[i] && test(([s[0]] + kept)[i]))
            && forall i, k | 0 <= i < k < |grown| :: grown[i] < grown[k]
  {
    assert forall i | 0 < i <= |at| :: ([0] + Moved(at))[i] == at[i - 1] + 1 && ([s[0]] + kept)[i] == kept[i - 1];
  }

  function OpenFn(task: Task, passed: bool, repairLeft: bool): TransitionRule -> bool {
    (e: TransitionRule) => Open(e, task, passed, repairLeft)
  }

  /** Where the eligible edges stand among all edges. */
  lemma {:induction false} EligibleAt(edges: seq<TransitionRule>, task: Task, passed: bool, repairLeft: bool) returns (at: seq<nat>)
    ensures Places(at, edges, Eligible(edges, task, passed, repairLeft), OpenFn(task, passed, repairLeft))
  {
    if edges == [] {
      at := [];
    } else {
      var rest := EligibleAt(edges[1..], task, passed, repairLeft);
      var kept := Eligible(edges[1..], task, passed, repairLeft);
      if Open(edges[0], task, passed, repairLeft) {
        at := [0] + Moved(rest);
        PlacesTake(rest, edges, kept, OpenFn(task, passed, repairLeft));
      } else {
        at := Moved(rest);
        PlacesSkip(rest, edges, kept, OpenFn(task, passed, repairLeft));
      }
    }
  }

  /** The selected edges are the taken ones. */
  lemma SelectedIsTaken(graph: WorkflowGraph, task: Task, passed: bool, repairLeft: bool, e: TransitionRule)
    requires Selected(graph, task, Eligible(graph.edges, task, passed, repairLeft)).Ok?
    ensures e in Selected(graph, task, Eligible(graph.edges, task, passed, repairLeft)).value
            <==> exists j: nat :: Taken(graph, task, passed, repairLeft, j) && graph.edges[j] == e
  {
    var el := Eligible(graph.edges, task, passed, repairLeft);
    var at := EligibleAt(graph.edges, task, passed, repairLeft);
    if task.definition.kind == ParallelFanOut {
      AllAreTaken(graph, task, passed, repairLeft, el, at, e);
    } else {
      PreferredIsTaken(graph, task, passed, repairLeft, el, at);
      OnlyPreferredIsTaken(graph, task, passed, repairLeft, el, at[Preferred(el)], e);
    }
  }

  lemma AllAreTaken(graph: WorkflowGraph, task: Task, passed: bool, repairLeft: bool, el: seq<TransitionRule>, at: seq<nat>, e: TransitionRule)
    requires task.definition.kind == ParallelFanOut && Places(at, graph.edges, el, OpenFn(task, passed, repairLeft))
    ensures e in el <==> exists j: nat :: Taken(graph, task, passed, repairLeft, j) && graph.edges[j] == e
  {
    if e in el {
      var i :| 0 <= i < |el| && el[i] == e;
      assert Taken(graph, task, passed, repairLeft, at[i]);
    }
    if j: nat :| Taken(graph, task, passed, repairLeft, j) && graph.edges[j] == e {
      assert OpenFn(task, passed, repairLeft)(graph.edges[j]);
      var i :| 0 <= i < |at| && at[i] == j;
      assert el[i] == e;
    }
  }

  lemma OnlyPreferredIsTaken(graph: WorkflowGraph, task: Task, passed: bool, repairLeft: bool, el: seq<TransitionRule>, p: nat, e: TransitionRule)
    requires task.definition.kind != ParallelFanOut && el != []
    requires Taken(graph, task, passed, repairLeft, p) && graph.edges[p] == el[Preferred(el)]
    ensures e in Selected(graph, task, el).value <==> exists j: nat :: Taken(graph, task, passed, repairLeft, j) && graph.edges[j] == e
  {
    assert Selected(graph, task, el).value == [graph.edges[p]];
    if j: nat :| Taken(graph, task, passed, repairLeft, j) && graph.edges[j] == e {
      OneIsTaken(graph, task, passed, repairLeft, j, p);
    }
  }

  lemma OneIsTaken(graph: WorkflowGraph, task: Task, passed: bool, repairLeft: bool, j: nat, k: nat)
    requires task.definition.kind != ParallelFanOut
    requires Taken(graph, task, passed, repairLeft, j) && Taken(graph, task, passed, repairLeft, k)
    ensures j == k
  {
  }

  lemma PreferredIsTaken(graph: WorkflowGraph, task: Task, passed: bool, repairLeft: bool, el: seq<TransitionRule>, at: seq<nat>)
    requires el != [] && Places(at, graph.edges, el, OpenFn(task, passed, repairLeft))
    ensures Taken(graph, task, passed, repairLeft, at[Preferred(el)])
  {
    var p := Preferred(el);
    forall k | 0 <= k < |graph.edges| && Open(graph.edges[k], task, passed, repairLeft)
      ensures el[p].priority < graph.edges[k].priority || (el[p].priority == graph.edges[k].priority && at[p] <= k)
    {
      var i :| 0 <= i < |at| && at[i] == k;
    }
  }

  /** The stage takes a budget-remaining edge. */
  ghost predicate TakesRepair(graph: WorkflowGraph, task: Task, passed: bool, repairLeft: bool) {
    exists j: nat :: Taken(graph, task, passed, repairLeft, j) && graph.edges[j].condition == BudgetRemaining
  }

  ghost function OpenPlaces(graph: WorkflowGraph, task: Task, passed: bool, repairLeft: bool): set<nat> {
    set j: nat | j < |graph.edges| && Open(graph.edges[j], task, passed, repairLeft)
  }

  /** A stage may go on: an edge is open, and a fan-out has no open budget-remaining edge
      and at most as many open edges as the ceiling. */
  ghost predicate GoesOn(graph: WorkflowGraph, task: Task, passed: bool, repairLeft: bool) {
    var open := OpenPlaces(graph, task, passed, repairLeft);
    && open != {}
    && (task.definition.kind == ParallelFanOut ==>
          (forall j | j in open :: graph.edges[j].condition != BudgetRemaining) && |open| <= graph.limits.maximumParallelism)
  }

  lemma SelectedIff(graph: WorkflowGraph, task: Task, passed: bool, repairLeft: bool)
    ensures Selected(graph, task, Eligible(graph.edges, task, passed, repairLeft)).Ok? <==> GoesOn(graph, task, passed, repairLeft)
  {
    var at := EligibleAt(graph.edges, task, passed, repairLeft);
    KeptIff(graph, task, passed, repairLeft, Eligible(graph.edges, task, passed, repairLeft), at);
  }

  lemma KeptIff(graph: WorkflowGraph, task: Task, passed: bool, repairLeft: bool, el: seq<TransitionRule>, at: seq<nat>)
    requires Places(at, graph.edges, el, OpenFn(task, passed, repairLeft))
    ensures Selected(graph, task, el).Ok? <==> GoesOn(graph, task, passed, repairLeft)
  {
    OpenAreKept(graph, task, passed, repairLeft, el, at);
    RepairAmongOpen(graph, task, passed, repairLeft, el, at);
    assert el == [] <==> OpenPlaces(graph, task, passed, repairLeft) == {};
  }

  lemma OpenAreKept(graph: WorkflowGraph, task: Task, passed: bool, repairLeft: bool, el: seq<TransitionRule>, at: seq<nat>)
    requires Places(at, graph.edges, el, OpenFn(task, passed, repairLeft))
    ensures OpenPlaces(graph, task, passed, repairLeft) == Members(at)
    ensures |OpenPlaces(graph, task, passed, repairLeft)| == |el|
  {
    AscendingSet(at);
    var open := OpenPlaces(graph, task, passed, repairLeft);
    forall x | x in at ensures x in open {
      var i :| 0 <= i < |at| && at[i] == x;
    }
    assert open == Members(at);
  }

  lemma RepairAmongOpen(graph: WorkflowGraph, task: Task, passed: bool, repairLeft: bool, el: seq<TransitionRule>, at: seq<nat>)
    requires Places(at, graph.edges, el, OpenFn(task, passed, repairLeft))
    ensures (exists e :: e in el && IsRepair(e))
            <==> exists j | j in OpenPlaces(graph, task, passed, repairLeft) :: graph.edges[j].condition == BudgetRemaining
  {
    OpenAreKept(graph, task, passed, repairLeft, el, at);
    if e :| e in el && IsRepair(e) {
      var i :| 0 <= i < |el| && el[i] == e;
      assert at[i] in at && graph.edges[at[i]] == e;
    }
    if j :| j in OpenPlaces(graph, task, passed, repairLeft) && graph.edges[j].condition == BudgetRemaining {
      var i :| 0 <= i < |at| && at[i] == j;
      assert el[i] in el && IsRepair(el[i]);
    }
  }

  ghost function Members<T>(s: seq<T>): set<T> { set x | x in s }

  lemma MembersAppend<T>(s: seq<T>, x: T)
    ensures Members(s + [x]) == Members(s) + {x}
  {
  }

  /** A strictly ascending sequence has as many members as places. */
  lemma {:induction false} AscendingSet(s: seq<nat>)
    requires forall i, k | 0 <= i < k < |s| :: s[i] < s[k]
    ensures |Members(s)| == |s|
  {
    if s != [] {
      var front, last := s[..|s| - 1], s[|s| - 1];
      assert forall i, k | 0 <= i < k < |front| :: front[i] < front[k];
      AscendingSet(front);
      assert s == front + [last];
      MembersAppend(front, last);
      assert last !in front;
    }
  }

  // ---- outcomes ------------------------------------------------------------

  /** Some character is not white space. */
  predicate Says(reason: Option<string>) {
    reason.Some? && exists i | 0 <= i < |reason.value| :: !Text.IsWhitespace(reason.value[i])
  }

  predicate Infrastructure(domain: FailureDomain) {
    || domain == ModelProvider || domain == BuildEnvironment || domain == Evaluator
    || domain == WorkerInfrastructure || domain == Backend
  }

  /** A valid report of a supervisor about this run: attested, and passed exactly if every
      check passed and no policy was violated. */
  predicate Genuine(report: VerificationReport, state: RunState) {
    && report.supervisorAttestation.Some? && report.supervisorAttestation.value != ""
    && (report.passed <==> report.policyViolations == [] && forall i | 0 <= i < |report.checks| :: report.checks[i] == Passed)
    && report.runId == state.runId && report.candidateId == state.candidateId
  }

  /** What an outcome must meet, `plan` being the plan so far: infrastructure failures do
      not count against the candidate; a plan replaces another one only under a higher
      revision and with a reason; patches need a plan; and a report comes from every
      verification gate and from nowhere else, the gate being trusted. */
  predicate Admissible(state: RunState, plan: Option<EngineeringPlan>, task: Task, outcome: StageOutcome) {
    && (forall i | 0 <= i < |outcome.failures| ::
          !(Infrastructure(outcome.failures[i].domain) && outcome.failures[i].countsAgainstCandidate))
    && (outcome.plan.Some? && plan.Some? ==>
          outcome.plan.value.revision > plan.value.revision && Says(outcome.plan.value.revisionReason))
    && (outcome.patches == [] || outcome.plan.Some? || plan.Some?)
    && (outcome.verification.Some? <==> task.definition.kind == VerificationGate)
    && (outcome.verification.Some? ==> task.definition.trusted && Genuine(outcome.verification.value, state))
  }

  lemma TrimmedAwayIff(s: string)
    ensures Text.Trim(s) == "" <==> Text.AllBlank(s)
  {
    var start := Text.TrimStart(s);
    Text.TrimStartSpec(s);
    Text.TrimEndSpec(start);
    var cut := s[..|s| - |start|];
    assert s == cut + start;
    if Text.Trim(s) == "" {
      assert start == [] + start[0..];
      assert Text.AllBlank(start);
    } else {
      assert !Text.IsWhitespace(start[0]) && s[|cut|] == start[0];
    }
  }

  /** An outcome is accepted exactly if it is admissible. */
  lemma AcceptedIff(state: RunState, task: Task, outcome: StageOutcome, usage: BudgetUsage)
    ensures ApplyOutcome(state, task, outcome, usage).Ok? <==> Admissible(state, state.plan, task, outcome)
  {
    if outcome.plan.Some? && outcome.plan.value.revisionReason.Some? {
      TrimmedAwayIff(outcome.plan.value.revisionReason.value);
    }
    FailuresIff(outcome.failures);
    assert AdoptPlan(state.plan, outcome.plan).Ok?
           <==> (outcome.plan.Some? && state.plan.Some? ==>
                   outcome.plan.value.revision > state.plan.value.revision && Says(outcome.plan.value.revisionReason));
    assert AdoptReport(state, task, outcome.verification).Ok?
           <==> && (outcome.verification.Some? <==> task.definition.kind == VerificationGate)
                && (outcome.verification.Some? ==> task.definition.trusted && Genuine(outcome.verification.value, state));
  }

  lemma FailuresIff(failures: seq<FailureEvidence>)
    ensures (exists i | 0 <= i < |failures| :: !failures[i].Admissible())
            <==> exists i | 0 <= i < |failures| :: Infrastructure(failures[i].domain) && failures[i].countsAgainstCandidate
  {
  }

  // ---- one stage -----------------------------------------------------------

  ghost predicate LeadsTo(graph: WorkflowGraph, task: Task, passed: bool, repairLeft: bool, id: StageId) {
    exists j: nat :: Taken(graph, task, passed, repairLeft, j) && graph.edges[j].to == id
  }

  /** The stages after which a checkpoint is sealed. */
  predicate AsksForSeal(task: Task, outcome: StageOutcome) {
    || task.id == "explore_repository" || task.id == "diagnose" || task.id == "plan" || task.id == "repair"
    || outcome.patches != [] || task.definition.kind == VerificationGate
  }

  function RoomOf(ledger: Ledger): nat { SatSub(ledger.limits.repair, ledger.usage.consumed.repair + ledger.usage.reserved.repair) }

  lemma TakenRepairs(graph: WorkflowGraph, task: Task, passed: bool, repairLeft: bool)
    requires GoesOn(graph, task, passed, repairLeft)
    ensures var selected := Selected(graph, task, Eligible(graph.edges, task, passed, repairLeft));
            selected.Ok? && RepairCount(selected.value) == if TakesRepair(graph, task, passed, repairLeft) then 1 else 0
  {
    SelectedIff(graph, task, passed, repairLeft);
    var el := Eligible(graph.edges, task, passed, repairLeft);
    var edges := Selected(graph, task, el).value;
    if task.definition.kind == ParallelFanOut {
      NoRepairs(edges);
      forall j: nat | Taken(graph, task, passed, repairLeft, j) ensures graph.edges[j].condition != BudgetRemaining {
        assert j in OpenPlaces(graph, task, passed, repairLeft);
      }
    } else {
      assert edges == [el[Preferred(el)]] && edges[1..] == [];
      SelectedIsTaken(graph, task, passed, repairLeft, edges[0]);
      if j: nat :| Taken(graph, task, passed, repairLeft, j) && graph.edges[j].condition == BudgetRemaining {
        SelectedIsTaken(graph, task, passed, repairLeft, graph.edges[j]);
      }
    }
  }

  lemma LeadsToTargets(graph: WorkflowGraph, task: Task, passed: bool, repairLeft: bool, id: StageId)
    requires GoesOn(graph, task, passed, repairLeft)
    ensures var selected := Selected(graph, task, Eligible(graph.edges, task, passed, repairLeft));
            selected.Ok? && (id in Targets(selected.value) <==> LeadsTo(graph, task, passed, repairLeft, id))
  {
    SelectedIff(graph, task, passed, repairLeft);
    var edges := Selected(graph, task, Eligible(graph.edges, task, passed, repairLeft)).value;
    if id in Targets(edges) {
      var e :| e in edges && e.to == id;
      SelectedIsTaken(graph, task, passed, repairLeft, e);
    }
    if j: nat :| Taken(graph, task, passed, repairLeft, j) && graph.edges[j].to == id {
      SelectedIsTaken(graph, task, passed, repairLeft, graph.edges[j]);
    }
  }

  lemma RepairNeedsRoom(graph: WorkflowGraph, task: Task, passed: bool)
    ensures !TakesRepair(graph, task, passed, false)
  {
  }

  function PlanAfter(plan: Option<EngineeringPlan>, outcome: StageOutcome): Option<EngineeringPlan> {
    if outcome.plan.Some? then outcome.plan else plan
  }

  /** A stage is applied exactly if its outcome is admissible and it may go on. */
  lemma StageAppliedIff(graph: WorkflowGraph, d: Draft, task: Task, outcome: StageOutcome)
    ensures ApplyStage(graph, d, task, outcome).Ok?
            <==> Admissible(d.state, d.state.plan, task, outcome) && GoesOn(graph, task, outcome.passed, RoomOf(d.ledger) > 0)
  {
    AcceptedIff(d.state, task, outcome, d.ledger.usage);
    SelectedIff(graph, task, outcome.passed, RoomOf(d.ledger) > 0);
    assert d.ledger.Remaining(RepairIterations) == RoomOf(d.ledger);
    RepairChargeNeverRefused(graph, d, task, outcome);
  }

  /** What an accepted outcome does to the state, up to the budget. */
  function Grown(state: RunState, outcome: StageOutcome, usage: BudgetUsage): RunState {
    state.(plan := PlanAfter(state.plan, outcome), patches := state.patches + outcome.patches,
           failureEvidence := state.failureEvidence + outcome.failures,
           verification := state.verification + (if outcome.verification.Some? then [outcome.verification.value] else []),
           budget := usage)
  }

  lemma OutcomeApplied(state: RunState, task: Task, outcome: StageOutcome, usage: BudgetUsage)
    requires ApplyOutcome(state, task, outcome, usage).Ok?
    ensures ApplyOutcome(state, task, outcome, usage).value == Grown(state, outcome, usage)
  {
    assert state.verification + [] == state.verification;
  }

  /** What an applied stage adds to the draft. */
  ghost predicate Adds(graph: WorkflowGraph, d: Draft, task: Task, outcome: StageOutcome, n: Draft) {
    var left := RoomOf(d.ledger) > 0;
    && (forall id :: id in n.frontier <==> id in d.frontier || LeadsTo(graph, task, outcome.passed, left, id))
    && (n.seal <==> d.seal || AsksForSeal(task, outcome))
    && n.patches == d.patches + outcome.patches
    && n.ledger == (if TakesRepair(graph, task, outcome.passed, left) then d.ledger.Spend(RepairIterations, 1) else d.ledger)
    && n.state == Grown(d.state, outcome, n.ledger.usage)
  }

  lemma StageApplied(graph: WorkflowGraph, d: Draft, task: Task, outcome: StageOutcome)
    requires ApplyStage(graph, d, task, outcome).Ok?
    ensures Adds(graph, d, task, outcome, ApplyStage(graph, d, task, outcome).value)
  {
    StageAppliedIff(graph, d, task, outcome);
    StageTakes(graph, d, task, outcome);
    StageCharges(graph, d, task, outcome);
  }

  lemma StageFrontier(graph: WorkflowGraph, d: Draft, task: Task, outcome: StageOutcome)
    requires ApplyStage(graph, d, task, outcome).Ok?
    ensures var selected := Selected(graph, task, Eligible(graph.edges, task, outcome.passed, RoomOf(d.ledger) > 0));
            selected.Ok? && ApplyStage(graph, d, task, outcome).value.frontier == d.frontier + Targets(selected.value)
  {
    assert d.ledger.Remaining(RepairIterations) == RoomOf(d.ledger);
  }

  lemma StageTakes(graph: WorkflowGraph, d: Draft, task: Task, outcome: StageOutcome)
    requires ApplyStage(graph, d, task, outcome).Ok? && GoesOn(graph, task, outcome.passed, RoomOf(d.ledger) > 0)
    ensures forall id :: id in ApplyStage(graph, d, task, outcome).value.frontier
                         <==> id in d.frontier || LeadsTo(graph, task, outcome.passed, RoomOf(d.ledger) > 0, id)
  {
    StageFrontier(graph, d, task, outcome);
    TargetsAreLedTo(graph, task, outcome.passed, RoomOf(d.ledger) > 0, d.frontier, ApplyStage(graph, d, task, outcome).value.frontier);
  }

  lemma TargetsAreLedTo(graph: WorkflowGraph, task: Task, passed: bool, left: bool, before: set<StageId>, after: set<StageId>)
    requires GoesOn(graph, task, passed, left)
    requires var selected := Selected(graph, task, Eligible(graph.edges, task, passed, left));
             selected.Ok? && after == before + Targets(selected.value)
    ensures forall id :: id in after <==> id in before || LeadsTo(graph, task, passed, left, id)
  {
    forall id ensures id in after <==> id in before || LeadsTo(graph, task, passed, left, id) {
      LeadsToTargets(graph, task, passed, left, id);
    }
  }

  lemma StageCharges(graph: WorkflowGraph, d: Draft, task: Task, outcome: StageOutcome)
    requires ApplyStage(graph, d, task, outcome).Ok? && GoesOn(graph, task, outcome.passed, RoomOf(d.ledger) > 0)
    ensures var n := ApplyStage(graph, d, task, outcome).value;
            && (n.seal <==> d.seal || AsksForSeal(task, outcome))
            && n.patches == d.patches + outcome.patches
            && n.ledger == (if TakesRepair(graph, task, outcome.passed, RoomOf(d.ledger) > 0) then d.ledger.Spend(RepairIterations, 1) else d.ledger)
            && n.state == Grown(d.state, outcome, n.ledger.usage)
  {
    assert d.ledger.Remaining(RepairIterations) == RoomOf(d.ledger);
    TakenRepairs(graph, task, outcome.passed, RoomOf(d.ledger) > 0);
    OutcomeApplied(d.state, task, outcome, d.ledger.usage);
  }
}
