/** When the newest checkpoint of a directory depends on the order in which its files are
listed, and how the executor comes to write such a directory. */
module Directories {
  import opened Common
  import opened Budget
  import opened Workflow
  import opened Serial
  import opened Runs
  import opened Checkpoints
  import Text

  // ---- what a directory holds ----------------------------------------------

  /** A `.json` file that does not load. */
  predicate Fails(e: Entry, hash: Checkpoint -> string)
    requires forall c :: |hash(c)| >= 16
  {
    IsJson(e) && Load(e, hash).Err?
  }

  /** A directory in which every file loads. */
  lemma {:induction false} AllLoad(entries: seq<Entry>, hash: Checkpoint -> string)
    requires forall c :: |hash(c)| >= 16
    requires forall e | e in entries :: !Fails(e, hash)
    ensures LoadAll(entries, hash) == Ok(Contents(entries))
  {
    if entries != [] {
      var front, e := entries[..|entries| - 1], entries[|entries| - 1];
      assert e in entries && forall d | d in front :: d in entries;
      AllLoad(front, hash);
      assert Contents(front) + [] == Contents(front);
    }
  }

  /** A directory with files that do not load answers with the error of one of them, and
      with the first one's if that is at the front. */
  lemma {:induction false} SomeFails(entries: seq<Entry>, hash: Checkpoint -> string)
    requires forall c :: |hash(c)| >= 16
    requires exists e | e in entries :: Fails(e, hash)
    ensures LoadAll(entries, hash).Err?
    ensures exists e | e in entries :: Fails(e, hash) && Load(e, hash) == Err(LoadAll(entries, hash).error)
    ensures Fails(entries[0], hash) ==> Load(entries[0], hash) == Err(LoadAll(entries, hash).error)
  {
    var front, e := entries[..|entries| - 1], entries[|entries| - 1];
    assert e in entries && forall d | d in front :: d in entries;
    assert forall d | d in entries :: d in front || d == e;
    if exists d | d in front :: Fails(d, hash) {
      SomeFails(front, hash);
      assert front[0] == entries[0];
    } else {
      AllLoad(front, hash);
      assert Fails(e, hash);
      if |entries| > 1 {
        assert entries[0] == front[0] && front[0] in front;
      }
    }
  }

  // ---- order ---------------------------------------------------------------

  /** The answer does not depend on the order: nothing fails and one checkpoint is the
      newest, or all that fails fails alike. */
  ghost predicate OrderFree(entries: seq<Entry>, hash: Checkpoint -> string)
    requires forall c :: |hash(c)| >= 16
  {
    if exists e | e in entries :: Fails(e, hash)
    then forall d, e | d in entries && e in entries && Fails(d, hash) && Fails(e, hash) :: Load(d, hash) == Load(e, hash)
    else UniqueNewest(Contents(entries))
  }

  lemma SameFiles(p: seq<Entry>, q: seq<Entry>)
    requires multiset(p) == multiset(q)
    ensures forall e :: e in p <==> e in q
  {
    assert forall e :: e in p <==> e in multiset(p);
    assert forall e :: e in q <==> e in multiset(q);
  }

  lemma OrderFreeIsEnough(entries: seq<Entry>, p: seq<Entry>, hash: Checkpoint -> string)
    requires forall c :: |hash(c)| >= 16
    requires multiset(p) == multiset(entries) && OrderFree(entries, hash)
    ensures Latest(p, hash) == Latest(entries, hash)
  {
    SameFiles(p, entries);
    if exists e | e in entries :: Fails(e, hash) {
      FailingAlike(entries, p, hash);
    } else {
      AllLoad(entries, hash);
      AllLoad(p, hash);
      GatherPermuted(p, entries, PartFn());
      UniqueNewestStands(Contents(entries), Contents(p));
    }
  }

  lemma FailingAlike(entries: seq<Entry>, p: seq<Entry>, hash: Checkpoint -> string)
    requires forall c :: |hash(c)| >= 16
    requires (forall e :: e in p <==> e in entries) && exists e | e in entries :: Fails(e, hash)
    requires forall d, e | d in entries && e in entries && Fails(d, hash) && Fails(e, hash) :: Load(d, hash) == Load(e, hash)
    ensures Latest(p, hash) == Latest(entries, hash)
  {
    SomeFails(entries, hash);
    SomeFails(p, hash);
    var d :| d in entries && Fails(d, hash) && Load(d, hash) == Err(LoadAll(entries, hash).error);
    var e :| e in p && Fails(e, hash) && Load(e, hash) == Err(LoadAll(p, hash).error);
    assert Load(d, hash) == Load(e, hash);
  }

  /** The same files with this one listed first. */
  lemma ListedFirst(entries: seq<Entry>, i: nat) returns (p: seq<Entry>)
    requires i < |entries|
    ensures multiset(p) == multiset(entries) && p != [] && p[0] == entries[i]
    ensures Contents(p) == Part(entries[i]) + Contents(p[1..])
  {
    var a, b := CutAt(entries, i);
    p := [entries[i]] + (a + b);
    MiddleMultiset(a, [entries[i]], b);
    assert p[0] == entries[i] && p[1..] == a + b;
    GatherConcat([entries[i]], a + b, PartFn());
    ContentsOfOne(entries[i]);
  }

  lemma ContentsOfOne(e: Entry)
    ensures Gather([e], PartFn()) == Part(e)
  {
    GatherLast([], e, PartFn());
    assert [] + [e] == [e] && [] + Part(e) == Part(e);
  }

  lemma {:induction false} HeldBy(entries: seq<Entry>, c: Checkpoint) returns (i: nat)
    requires c in Contents(entries)
    ensures i < |entries| && Part(entries[i]) == [c]
  {
    var front, e := entries[..|entries| - 1], entries[|entries| - 1];
    if c in Contents(front) {
      i := HeldBy(front, c);
    } else {
      i := |entries| - 1;
    }
  }

  /** A newest checkpoint is the answer if its file is listed first. */
  lemma NewestFirst(entries: seq<Entry>, hash: Checkpoint -> string, c: Checkpoint) returns (p: seq<Entry>)
    requires forall c :: |hash(c)| >= 16
    requires (forall e | e in entries :: !Fails(e, hash)) && c in Contents(entries) && IsNewest(Contents(entries), c)
    ensures multiset(p) == multiset(entries) && Latest(p, hash) == Ok(Some(c))
  {
    var i := HeldBy(entries, c);
    p := ListedFirst(entries, i);
    SameFiles(p, entries);
    AllLoad(p, hash);
    GatherPermuted(p, entries, PartFn());
    SameMembers(Contents(p), Contents(entries));
    assert Contents(p)[0] == c;
    NewestAtFront(Contents(p));
  }

  /** `latest_checkpoint` answers the same in every order of the directory if and only if
      the directory is order-free. */
  lemma {:induction false} DirectoryOrderIff(entries: seq<Entry>, hash: Checkpoint -> string)
    requires forall c :: |hash(c)| >= 16
    ensures (forall p: seq<Entry> | multiset(p) == multiset(entries) :: Latest(p, hash) == Latest(entries, hash))
            <==> OrderFree(entries, hash)
  {
    if OrderFree(entries, hash) {
      forall p: seq<Entry> | multiset(p) == multiset(entries) ensures Latest(p, hash) == Latest(entries, hash) {
        OrderFreeIsEnough(entries, p, hash);
      }
    } else {
      var p, q := OrdersThatDiffer(entries, hash);
    }
  }

  lemma OrdersThatDiffer(entries: seq<Entry>, hash: Checkpoint -> string) returns (p: seq<Entry>, q: seq<Entry>)
    requires forall c :: |hash(c)| >= 16
    requires !OrderFree(entries, hash)
    ensures multiset(p) == multiset(entries) == multiset(q) && Latest(p, hash) != Latest(q, hash)
  {
    if exists e | e in entries :: Fails(e, hash) {
      var d, e :| d in entries && e in entries && Fails(d, hash) && Fails(e, hash) && Load(d, hash) != Load(e, hash);
      var i :| 0 <= i < |entries| && entries[i] == d;
      var j :| 0 <= j < |entries| && entries[j] == e;
      p := ListedFirst(entries, i);
      q := ListedFirst(entries, j);
      assert p[0] in p && q[0] in q;
      SomeFails(p, hash);
      SomeFails(q, hash);
    } else {
      var cs := Contents(entries);
      var c, d :| c in cs && d in cs && IsNewest(cs, c) && IsNewest(cs, d) && c != d;
      p := NewestFirst(entries, hash, c);
      q := NewestFirst(entries, hash, d);
    }
  }

  // ---- two resumes of one checkpoint ---------------------------------------

  /** A workflow of one planning stage that goes round, twice at most. */
  const PLAN: StageDefinition := StageDefinition(DeterministicTransform, None, None, None, false)

  const AGAIN: TransitionRule := TransitionRule("plan", "plan", Always, 0)

  const ROUND: WorkflowGraph := WorkflowGraph("plan", map["plan" := PLAN], [AGAIN], WorkflowLimits(2, 1, None))

  /** Every attempt of the stage reports these failures. */
  function Reporting(failures: seq<FailureEvidence>): Driver {
    Driver((_, _, _, _) => StageReply(Ok(Report(failures)), ZERO), _ => true)
  }

  const NOTE: FailureEvidence := FailureEvidence(Candidate, "note", false, "plan", true)

  /** The loop head after one more round. */
  ghost function NextRound(h: Head, failures: seq<FailureEvidence>): Head {
    Head(h.state.(currentStages := {"plan"}, attempts := h.state.attempts["plan" := Count(h.state.attempts, "plan") + 1],
                  failureEvidence := h.state.failureEvidence + failures, budget := h.ledger.usage),
         h.ledger, {"plan"}, h.sequence + 1, h.transitions + 1)
  }

  ghost predicate AtRound(h: Head) {
    HeadOk(ROUND, h) && h.frontier == {"plan"} && h.sequence < 10 && Count(h.state.attempts, "plan") < 10
  }

  lemma SortedSingleton(x: string)
    ensures Text.Sorted({x}) == [x]
  {
    var s := Text.Sorted({x});
    assert |s| == 1 && s[0] in s;
  }

  lemma RoundIsScheduled(h: Head)
    requires AtRound(h)
    ensures PlanFrontier(ROUND, h) == Go(["plan"])
  {
    SortedSingleton("plan");
    RoundIsClassified();
  }

  lemma RoundIsClassified()
    ensures Classify(ROUND, ["plan"], [], None) == Scheduled(["plan"], None)
  {
    assert "plan" in ROUND.stages && ROUND.stages["plan"] == PLAN && PLAN.kind == DeterministicTransform;
    assert ["plan"][1..] == [] && [] + ["plan"] == ["plan"];
    assert Classify(ROUND, [], ["plan"], None) == Scheduled(["plan"], None);
  }

  lemma RoundIsAdmitted(h: Head)
    requires AtRound(h) && h.transitions < 2
    ensures AdmitAttempts(ROUND, Admitted([], h.state.attempts, h.transitions), ["plan"])
            == Ok(RoundAdmitted(h))
  {
    assert ["plan"][1..] == [] && "plan" in ROUND.stages && ROUND.stages["plan"] == PLAN;
    assert [] + [RoundTask(h)] == [RoundTask(h)];
    assert AdmitAttempts(ROUND, RoundAdmitted(h), []) == Ok(RoundAdmitted(h));
  }

  /** The stage attempt of the next round. */
  ghost function RoundTask(h: Head): Task { Task("plan", PLAN, Count(h.state.attempts, "plan") + 1) }

  ghost function RoundAdmitted(h: Head): Admitted {
    Admitted([RoundTask(h)], h.state.attempts["plan" := Count(h.state.attempts, "plan") + 1], h.transitions + 1)
  }

  function Report(failures: seq<FailureEvidence>): StageOutcome { StageOutcome(true, None, [], failures, None) }

  lemma FreeCharge(l: Ledger)
    ensures ChargeCost(l, ZERO) == l && Affordable(l, ZERO)
  {
    TallyExtensional(PointwiseSum(l.usage.consumed, ZERO), l.usage.consumed);
  }

  lemma RoundIsRun(h: Head, failures: seq<FailureEvidence>, snapshot: RunState)
    ensures ReserveAll(h.ledger, [RoundTask(h)]) == Ok(h.ledger)
    ensures RunStages(Reporting(failures), [RoundTask(h)], snapshot, h.ledger) == StagesOk([Report(failures)], h.ledger)
  {
    var tasks := [RoundTask(h)];
    assert tasks[1..] == [] && RoundTask(h).Admission().None?;
    FreeCharge(h.ledger);
    assert RunStages(Reporting(failures), [], snapshot, h.ledger) == StagesOk([], h.ledger);
    assert [Report(failures)] + [] == [Report(failures)];
  }

  /** The draft after the round's outcome is applied. */
  ghost function RoundDraft(h: Head, failures: seq<FailureEvidence>): Draft {
    Draft(NextRound(h, failures).state, h.ledger, {"plan"}, true, [])
  }

  lemma RoundIsSelected(h: Head, remaining: bool)
    ensures Selected(ROUND, RoundTask(h), Eligible(ROUND.edges, RoundTask(h), true, remaining)) == Ok([AGAIN])
    ensures RepairCount([AGAIN]) == 0 && Targets([AGAIN]) == {"plan"}
  {
    assert [AGAIN][1..] == [];
    assert Eligible([], RoundTask(h), true, remaining) == [];
    assert Eligible(ROUND.edges, RoundTask(h), true, remaining) == [AGAIN];
  }

  lemma RoundOutcome(h: Head, s: RunState, failures: seq<FailureEvidence>)
    requires forall i | 0 <= i < |failures| :: failures[i].Admissible()
    ensures ApplyOutcome(s, RoundTask(h), Report(failures), h.ledger.usage)
            == Ok(s.(failureEvidence := s.failureEvidence + failures, budget := h.ledger.usage))
  {
    assert s.patches + [] == s.patches;
    assert AdoptPlan(s.plan, None) == Ok(s.plan) && AdoptReport(s, RoundTask(h), None) == Ok(s.verification);
  }

  lemma RoundIsApplied(h: Head, failures: seq<FailureEvidence>)
    requires h.state.budget == h.ledger.usage && forall i | 0 <= i < |failures| :: failures[i].Admissible()
    ensures var state := h.state.(currentStages := {"plan"});
            ApplyAll(ROUND, FirstDraft(state, RoundAdmitted(h).attempts, h.ledger), [RoundTask(h)], [Report(failures)])
            == Ok(RoundDraft(h, failures))
  {
    var state := h.state.(currentStages := {"plan"});
    var d := FirstDraft(state, RoundAdmitted(h).attempts, h.ledger);
    RoundIsSelected(h, d.ledger.Remaining(RepairIterations) > 0);
    RoundOutcome(h, d.state, failures);
    assert d.ledger.Consume(RepairIterations, 0) == Ok(d.ledger);
    assert RequiresCheckpoint(RoundTask(h), Report(failures));
    assert d.frontier + {"plan"} == {"plan"} && d.patches + [] == [];
    assert ApplyStage(ROUND, d, RoundTask(h), Report(failures)) == Ok(RoundDraft(h, failures));
    assert [RoundTask(h)][1..] == [] && [Report(failures)][1..] == [];
    assert ApplyAll(ROUND, RoundDraft(h, failures), [], []) == Ok(RoundDraft(h, failures));
  }

  ghost function RoundSeal(h: Head, failures: seq<FailureEvidence>): Checkpoint {
    SealOf(RoundDraft(h, failures), h.sequence + 1)
  }

  /** One round commits and seals. */
  lemma RoundCommits(h: Head, failures: seq<FailureEvidence>)
    requires AtRound(h) && h.transitions < 2 && forall i | 0 <= i < |failures| :: failures[i].Admissible()
    ensures FrontierStep(ROUND, Reporting(failures), h) == Committed(NextRound(h, failures), Some(RoundSeal(h, failures)))
  {
    RoundIsScheduled(h);
    RoundIsAdmitted(h);
    RoundIsRun(h, failures, h.state.(currentStages := {"plan"}));
    RoundIsApplied(h, failures);
  }

  /** The third round is not admitted. */
  lemma RoundsEnd(h: Head, failures: seq<FailureEvidence>)
    requires AtRound(h) && h.transitions == 2
    ensures FrontierStep(ROUND, Reporting(failures), h).Ended?
  {
    RoundIsScheduled(h);
    assert ["plan"][0] == "plan";
  }

  lemma NextRoundOk(h: Head, failures: seq<FailureEvidence>)
    requires AtRound(h) && h.transitions < 2 && h.sequence < 9 && Count(h.state.attempts, "plan") < 9
    ensures AtRound(NextRound(h, failures)) && SealsHead(RoundSeal(h, failures), NextRound(h, failures))
  {
    TotalUpdate(h.state.attempts, "plan", Count(h.state.attempts, "plan") + 1);
  }

  /** The workflow with stages that report this seals these checkpoints from here. */
  ghost predicate Seals(h: Head, failures: seq<FailureEvidence>, seals: seq<Checkpoint>) {
    HeadOk(ROUND, h) && Run(ROUND, SerialStepper(ROUND, Reporting(failures)), h).seals == seals
  }

  /** The last round of a run. */
  lemma LastRound(h: Head, failures: seq<FailureEvidence>)
    requires AtRound(h) && h.transitions == 1 && h.sequence < 9 && Count(h.state.attempts, "plan") < 9
    requires forall i | 0 <= i < |failures| :: failures[i].Admissible()
    ensures Seals(h, failures, [RoundSeal(h, failures)])
  {
    var next := NextRound(h, failures);
    NextRoundOk(h, failures);
    RoundsEnd(next, failures);
    EndSeals(next, failures);
    RoundSeals(h, failures, []);
    assert [RoundSeal(h, failures)] + [] == [RoundSeal(h, failures)];
  }

  lemma EndSeals(h: Head, failures: seq<FailureEvidence>)
    requires HeadOk(ROUND, h) && FrontierStep(ROUND, Reporting(failures), h).Ended?
    ensures Seals(h, failures, [])
  {
    var step := SerialStepper(ROUND, Reporting(failures));
    assert step(h) == FrontierStep(ROUND, Reporting(failures), h);
  }

  /** A committed round seals, and then whatever follows it. */
  lemma RoundSeals(h: Head, failures: seq<FailureEvidence>, rest: seq<Checkpoint>)
    requires AtRound(h) && h.transitions < 2 && forall i | 0 <= i < |failures| :: failures[i].Admissible()
    requires Seals(NextRound(h, failures), failures, rest)
    ensures Seals(h, failures, [RoundSeal(h, failures)] + rest)
  {
    RoundCommits(h, failures);
    var step := SerialStepper(ROUND, Reporting(failures));
    assert step(h) == FrontierStep(ROUND, Reporting(failures), h);
  }

  /** A loop head at which the workflow begins. */
  lemma RoundsBegin() returns (h: Head)
    ensures AtStart(h)
  {
    var l := Ledger(ZERO, BudgetUsage(ZERO, ZERO));
    h := Head(RunState("t", "r", "c", "s", {}, map[], None, [], [], l.usage, []), l, {"plan"}, 0, 0);
  }

  /** A fresh process that resumes `c` with stages that report this seals these. */
  ghost predicate ResumeSeals(limits: Tally, c: Checkpoint, caller: RunState, failures: seq<FailureEvidence>, seals: seq<Checkpoint>) {
    Resume(ROUND, SerialStepper(ROUND, Reporting(failures)), FreshLedger(limits), c, caller).seals == seals
  }

  ghost predicate AtStart(h: Head) { AtRound(h) && h.transitions == 0 && h.sequence == 0 && h.state.attempts == map[] }

  lemma RoundsWritten(h: Head)
    requires AtStart(h)
    ensures Seals(h, [], [RoundSeal(h, []), RoundSeal(NextRound(h, []), [])])
  {
    var h1 := NextRound(h, []);
    NextRoundOk(h, []);
    LastRound(h1, []);
    RoundSeals(h, [], [RoundSeal(h1, [])]);
    assert [RoundSeal(h, [])] + [RoundSeal(h1, [])] == [RoundSeal(h, []), RoundSeal(h1, [])];
  }

  lemma RoundsResumed(h: Head, caller: RunState)
    requires AtStart(h) && CallerAt(RoundSeal(h, []), caller)
    ensures ResumeSeals(h.ledger.limits, RoundSeal(h, []), caller, [NOTE], [RoundSeal(NextRound(h, []), [NOTE])])
  {
    NextRoundOk(h, []);
    LastRound(NextRound(h, []), [NOTE]);
    ResumeReachesSealedHead(ROUND, SerialStepper(ROUND, Reporting([NOTE])), NextRound(h, []), RoundSeal(h, []), caller);
  }

  /** A directory that the executor writes and that is not order-free: one process runs
      the workflow and seals twice; another, whose stage reports something else, resumes
      the first checkpoint and seals the same sequence again. */
  lemma {:induction false} OldResumeCollides(h: Head, caller: RunState, hash: Checkpoint -> string)
    returns (first: Checkpoint, second: Checkpoint, again: Checkpoint)
    requires forall c :: |hash(c)| >= 16
    requires AtStart(h) && CallerAt(RoundSeal(h, []), caller)
    ensures first == RoundSeal(h, []) && Seals(h, [], [first, second])
    ensures ResumeSeals(h.ledger.limits, first, caller, [NOTE], [again])
    ensures again.createdAtSequence == second.createdAtSequence && again != second
    ensures !OrderFree(Written([first, second, again], hash), hash)
  {
    var h1 := NextRound(h, []);
    first, second, again := RoundSeal(h, []), RoundSeal(h1, []), RoundSeal(h1, [NOTE]);
    RoundsWritten(h);
    RoundsResumed(h, caller);
    assert again.state.failureEvidence != second.state.failureEvidence;
    CollisionIsSeen(first, second, again, hash);
  }

  lemma CollisionIsSeen(first: Checkpoint, second: Checkpoint, again: Checkpoint, hash: Checkpoint -> string)
    requires forall c :: |hash(c)| >= 16
    requires second != again && first.createdAtSequence <= second.createdAtSequence == again.createdAtSequence
    requires first.IdentityCoherent() && second.IdentityCoherent() && again.IdentityCoherent()
    ensures !OrderFree(Written([first, second, again], hash), hash)
  {
    var seals := [first, second, again];
    var entries := Written(seals, hash);
    WrittenContents(seals, hash);
    forall e | e in entries ensures !Fails(e, hash) {
      var i :| 0 <= i < |entries| && entries[i] == e;
      assert e == SealEntry(seals[i], hash) && seals[i].IdentityCoherent();
    }
    assert seals[1] == second && seals[2] == again;
    assert second in seals && again in seals;
    assert IsNewest(seals, second) && IsNewest(seals, again);
  }
}
