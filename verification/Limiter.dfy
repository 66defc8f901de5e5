/** The adaptive concurrency limiter: reserved foreground slots, a hard cap, and the
register / check / sleep protocol of its waiters. Instants are milliseconds. */
module Limiter {
  import opened Common

  const RECOVERY_SUCCESSES: nat := 4
  const ADAPTIVE_COOLDOWN: nat := 10_000

  datatype Config = Config(maxConcurrent: nat, reserved: nat, adaptive: bool) {
    predicate Valid() { 0 < maxConcurrent && reserved < maxConcurrent }

    /** The limit may not collapse into the foreground reservation. */
    function Floor(): nat { Min(reserved + 1, maxConcurrent) }
  }

  datatype ConfigError = NoConcurrency | ReservationTooLarge

  function Validate(c: Config): (r: Result<Config, ConfigError>)
    ensures r.Ok? <==> c.Valid()
    ensures r.Ok? ==> r.value == c && c.Floor() == c.reserved + 1
  {
    if c.maxConcurrent == 0 then Err(NoConcurrency)
    else if c.reserved >= c.maxConcurrent then Err(ReservationTooLarge)
    else Ok(c)
  }

  datatype Outcome = Success | Throttled | Failed

  datatype LimitState = LimitState(inFlight: nat, aux: nat, limit: nat, streak: nat, lastThrottle: Option<nat>) {
    function Heal(c: Config): LimitState { this.(limit := Max(limit, c.Floor())) }

    predicate Admits(c: Config, auxiliary: bool) {
      inFlight < limit && (auxiliary ==> aux < SatSub(limit, c.reserved))
    }

    function Enter(auxiliary: bool): LimitState {
      this.(inFlight := inFlight + 1, aux := if auxiliary then aux + 1 else aux)
    }

    function Exit(auxiliary: bool): LimitState {
      this.(inFlight := SatSub(inFlight, 1), aux := if auxiliary then SatSub(aux, 1) else aux)
    }

    /** This success raises the limit. */
    predicate Raises(c: Config, o: Outcome, now: nat) {
      && o.Success?
      && (lastThrottle.None? || SatSub(now, lastThrottle.value) >= ADAPTIVE_COOLDOWN)
      && streak + 1 >= RECOVERY_SUCCESSES
      && limit < c.maxConcurrent
    }

    function Record(c: Config, o: Outcome, now: nat): LimitState {
      match o
      case Throttled => this.(limit := Max(SatSub(limit, 1), c.Floor()), streak := 0, lastThrottle := Some(now))
      case Success => if Raises(c, o, now) then this.(limit := limit + 1, streak := 0) else this.(streak := streak + 1)
      case Failed => this.(streak := 0)
    }
  }

  function Initial(c: Config): LimitState { LimitState(0, 0, c.maxConcurrent, 0, None) }

  // ---- the processes -------------------------------------------------------

  /** Where a request stands. `seen` is the notification round its `notified()` was
      created in: every later round wakes it, polled or not. */
  datatype Place =
    | Start
    | Registered(seen: nat)
    | Asleep(seen: nat)
    | Running
    | Recorded
    | Dropping
    | Released
    | Gone

  datatype Process = Process(auxiliary: bool, place: Place) {
    predicate Holds() { place.Running? || place.Recorded? || place.Dropping? }

    /** Between a state change and its `notify_waiters`. */
    predicate Announcing() { place.Recorded? || place.Released? }
  }

  function Permit(): Process -> nat { (p: Process) => if p.Holds() then 1 else 0 }

  function AuxPermit(): Process -> nat { (p: Process) => if p.Holds() && p.auxiliary then 1 else 0 }

  /** A recorded result, and whether it raised the limit. */
  datatype Entry = Entry(outcome: Outcome, raised: bool, at: nat)

  datatype System = System(state: LimitState, procs: seq<Process>, rounds: nat, now: nat, log: seq<Entry>) {
    function Move(i: nat, place: Place): System
      requires i < |procs|
    {
      this.(procs := procs[i := procs[i].(place := place)])
    }
  }

  datatype Action =
    | Arrive(auxiliary: bool)
    | Register(i: nat)
    | Check(i: nat)
    | Wake(i: nat)
    | Finish(i: nat, outcome: Outcome)
    | Notify(i: nat)
    | Release(i: nat)
    | Cancel(i: nat)
    | Tick(elapsed: nat)

  predicate Enabled(s: System, a: Action) {
    match a
    case Arrive(_) => true
    case Tick(_) => true
    case Register(i) => i < |s.procs| && s.procs[i].place.Start?
    case Check(i) => i < |s.procs| && s.procs[i].place.Registered?
    case Wake(i) => i < |s.procs| && s.procs[i].place.Asleep? && s.procs[i].place.seen < s.rounds
    case Finish(i, _) => i < |s.procs| && s.procs[i].place.Running?
    case Notify(i) => i < |s.procs| && s.procs[i].Announcing()
    case Release(i) => i < |s.procs| && s.procs[i].place.Dropping?
    case Cancel(i) => i < |s.procs| && (s.procs[i].place.Start? || s.procs[i].place.Registered?
                                        || s.procs[i].place.Asleep? || s.procs[i].place.Running?)
  }

  function Do(c: Config, s: System, a: Action): System
    requires Enabled(s, a)
  {
    match a
    case Arrive(auxiliary) => s.(procs := s.procs + [Process(auxiliary, Start)])
    case Tick(elapsed) => s.(now := s.now + elapsed)
    case Register(i) => s.Move(i, Registered(s.rounds))
    case Check(i) =>
      var healed := s.state.Heal(c);
      if healed.Admits(c, s.procs[i].auxiliary) then s.Move(i, Running).(state := healed.Enter(s.procs[i].auxiliary))
      else s.Move(i, Asleep(s.procs[i].place.seen)).(state := healed)
    case Wake(i) => s.Move(i, Start)
    case Finish(i, outcome) =>
      if c.adaptive then
        s.Move(i, Recorded).(state := s.state.Record(c, outcome, s.now),
                             log := s.log + [Entry(outcome, s.state.Raises(c, outcome, s.now), s.now)])
      else s.Move(i, Dropping)
    case Notify(i) =>
      s.Move(i, if s.procs[i].place.Recorded? then Dropping else Gone).(rounds := s.rounds + 1)
    case Release(i) => s.Move(i, Released).(state := s.state.Exit(s.procs[i].auxiliary))
    case Cancel(i) => s.Move(i, if s.procs[i].place.Running? then Dropping else Gone)
  }

  function Fresh(c: Config): System { System(Initial(c), [], 0, 0, []) }

  // ---- the invariant -------------------------------------------------------

  /** The counters are the permits that are out, so no subtraction saturates. */
  ghost predicate CountsExact(s: System) {
    s.state.inFlight == SumBy(s.procs, Permit()) && s.state.aux == SumBy(s.procs, AuxPermit())
  }

  predicate WithinLimits(c: Config, l: LimitState) {
    && l.aux <= l.inFlight <= c.maxConcurrent
    && c.reserved + 1 <= l.limit <= c.maxConcurrent
    && l.aux <= c.maxConcurrent - c.reserved
    && (!c.adaptive ==> l.limit == c.maxConcurrent)
  }

  ghost predicate SomeoneAnnounces(s: System) {
    exists j | 0 <= j < |s.procs| :: s.procs[j].Announcing()
  }

  /** This waiter sleeps and no notification is on its way to it yet. */
  predicate Unnotified(s: System, i: nat)
    requires i < |s.procs|
  {
    s.procs[i].place.Asleep? && s.procs[i].place.seen >= s.rounds
  }

  /** A waiter left asleep although it could now be admitted has somebody about to
      notify it. */
  ghost predicate NoLostWakeup(c: Config, s: System) {
    forall i | 0 <= i < |s.procs| :: Unnotified(s, i) && s.state.Admits(c, s.procs[i].auxiliary) ==> SomeoneAnnounces(s)
  }

  ghost predicate RoundsSane(s: System) {
    forall i | 0 <= i < |s.procs| ::
      s.procs[i].place.Registered? || s.procs[i].place.Asleep? ==> s.procs[i].place.seen <= s.rounds
  }

  /** The unraised successes at the end of the log. */
  function Streak(log: seq<Entry>): nat {
    if log == [] then 0
    else
      var e := log[|log| - 1];
      if e.outcome.Success? && !e.raised then Streak(log[..|log| - 1]) + 1 else 0
  }

  /** A raise is a success with three plain successes right before it, ten seconds or more
      after every throttle. */
  ghost predicate RaiseEarned(log: seq<Entry>, k: nat)
    requires k < |log|
  {
    && k >= 3
    && log[k].outcome.Success?
    && (forall j | k - 3 <= j < k :: log[j].outcome.Success? && !log[j].raised)
    && (forall j | 0 <= j < k && log[j].outcome.Throttled? :: log[j].at + 10_000 <= log[k].at)
  }

  /** The limit that a log leads to: the cap at first, one less per throttle down to the
      slot above the reservation, one more per raise. */
  function LimitFrom(c: Config, log: seq<Entry>): nat {
    if log == [] then c.maxConcurrent
    else
      var before := LimitFrom(c, log[..|log| - 1]);
      var e := log[|log| - 1];
      if e.outcome.Throttled? then (if before > c.reserved + 1 then before - 1 else c.reserved + 1)
      else if e.raised then before + 1
      else before
  }

  /** Exactly the earned raises below the cap happen. */
  ghost predicate RaisesExact(c: Config, log: seq<Entry>) {
    forall k | 0 <= k < |log| :: log[k].raised <==> RaiseEarned(log, k) && LimitFrom(c, log[..k]) < c.maxConcurrent
  }

  ghost predicate InThePast(log: seq<Entry>, now: nat) {
    forall k | 0 <= k < |log| :: log[k].at <= now
  }

  /** The throttle remembered is in the log, and none in the log is later. */
  ghost predicate ThrottlesKnown(l: LimitState, log: seq<Entry>, now: nat) {
    && (forall k | 0 <= k < |log| && log[k].outcome.Throttled? ::
          l.lastThrottle.Some? && log[k].at <= l.lastThrottle.value <= now)
    && (l.lastThrottle.Some? ==> exists k | 0 <= k < |log| :: log[k].outcome.Throttled? && log[k].at == l.lastThrottle.value)
  }

  /** The log determines the limit and which successes raise it. */
  ghost predicate HistoryOk(c: Config, s: System) {
    && s.state.streak == Streak(s.log) && s.state.limit == LimitFrom(c, s.log) && RaisesExact(c, s.log)
    && InThePast(s.log, s.now) && ThrottlesKnown(s.state, s.log, s.now)
  }

  ghost predicate Inv(c: Config, s: System) {
    CountsExact(s) && WithinLimits(c, s.state) && NoLostWakeup(c, s) && RoundsSane(s) && HistoryOk(c, s)
  }

  lemma {:induction false} AuxWithinAll(procs: seq<Process>)
    ensures SumBy(procs, AuxPermit()) <= SumBy(procs, Permit())
  {
    if procs != [] {
      AuxWithinAll(procs[1..]);
    }
  }

  /** What one process holds, as numbers. */
  function Held(p: Process): (nat, nat) { (Permit()(p), AuxPermit()(p)) }

  lemma HeldIsCounted(s: System, i: nat)
    requires i < |s.procs| && CountsExact(s)
    ensures Held(s.procs[i]).0 <= s.state.inFlight && Held(s.procs[i]).1 <= s.state.aux
  {
    SumByMember(s.procs, i, Permit());
    SumByMember(s.procs, i, AuxPermit());
  }

  lemma MoveCounts(s: System, i: nat, place: Place, l: LimitState)
    requires i < |s.procs| && CountsExact(s)
    requires l.inFlight + Held(s.procs[i]).0 == s.state.inFlight + Held(s.procs[i].(place := place)).0
    requires l.aux + Held(s.procs[i]).1 == s.state.aux + Held(s.procs[i].(place := place)).1
    ensures CountsExact(s.Move(i, place).(state := l)) && l.aux <= l.inFlight
  {
    SumByUpdate(s.procs, i, s.procs[i].(place := place), Permit());
    SumByUpdate(s.procs, i, s.procs[i].(place := place), AuxPermit());
    AuxWithinAll(s.Move(i, place).procs);
  }

  lemma CountsKept(c: Config, s: System, a: Action)
    requires c.Valid() && Enabled(s, a) && CountsExact(s) && WithinLimits(c, s.state)
    ensures CountsExact(Do(c, s, a)) && Do(c, s, a).state.aux <= Do(c, s, a).state.inFlight
    ensures a.Release? ==> s.state.inFlight >= 1 && (s.procs[a.i].auxiliary ==> s.state.aux >= 1)
  {
    match a {
      case Arrive(auxiliary) =>
        SumByAppend(s.procs, Process(auxiliary, Start), Permit());
        SumByAppend(s.procs, Process(auxiliary, Start), AuxPermit());
      case Tick(_) =>
      case Release(i) =>
        HeldIsCounted(s, i);
        MoveCounts(s, i, Released, s.state.Exit(s.procs[i].auxiliary));
      case Check(i) =>
        var healed := s.state.Heal(c);
        if healed.Admits(c, s.procs[i].auxiliary) {
          MoveCounts(s, i, Running, healed.Enter(s.procs[i].auxiliary));
        } else {
          MoveCounts(s, i, Asleep(s.procs[i].place.seen), healed);
        }
      case Finish(i, outcome) =>
        if c.adaptive {
          MoveCounts(s, i, Recorded, s.state.Record(c, outcome, s.now));
        } else {
          MoveCounts(s, i, Dropping, s.state);
        }
      case _ => MoveCounts(s, a.i, Do(c, s, a).procs[a.i].place, s.state);
    }
  }

  lemma LimitsKept(c: Config, s: System, a: Action)
    requires c.Valid() && Enabled(s, a) && WithinLimits(c, s.state)
    requires Do(c, s, a).state.aux <= Do(c, s, a).state.inFlight
    ensures WithinLimits(c, Do(c, s, a).state)
  {
  }

  /** An announcer stays one unless it announces. */
  lemma AnnouncerStays(c: Config, s: System, a: Action)
    requires Enabled(s, a) && SomeoneAnnounces(s) && !a.Notify?
    ensures SomeoneAnnounces(Do(c, s, a))
  {
    var j :| 0 <= j < |s.procs| && s.procs[j].Announcing();
    assert Do(c, s, a).procs[j].Announcing();
  }

  lemma WakeupsKept(c: Config, s: System, a: Action)
    requires c.Valid() && Enabled(s, a) && WithinLimits(c, s.state) && NoLostWakeup(c, s) && RoundsSane(s)
    ensures NoLostWakeup(c, Do(c, s, a)) && RoundsSane(Do(c, s, a))
  {
    var t := Do(c, s, a);
    forall i | 0 <= i < |t.procs| && Unnotified(t, i) && t.state.Admits(c, t.procs[i].auxiliary) ensures SomeoneAnnounces(t) {
      if SomeoneAnnounces(s) && !a.Notify? {
        AnnouncerStays(c, s, a);
      } else if (a.Finish? && c.adaptive) || a.Release? {
        assert t.procs[a.i].Announcing();
      }
    }
  }

  /** The streak is the longest run of unraised successes at the end. */
  lemma {:induction false} StreakLength(log: seq<Entry>)
    ensures Streak(log) <= |log|
    ensures forall j | |log| - Streak(log) <= j < |log| :: log[j].outcome.Success? && !log[j].raised
    ensures Streak(log) < |log| ==> !(log[|log| - Streak(log) - 1].outcome.Success? && !log[|log| - Streak(log) - 1].raised)
  {
    if log != [] {
      StreakLength(log[..|log| - 1]);
    }
  }

  lemma StreakGrows(c: Config, l: LimitState, log: seq<Entry>, o: Outcome, now: nat)
    requires l.streak == Streak(log)
    ensures l.Record(c, o, now).streak == Streak(log + [Entry(o, l.Raises(c, o, now), now)])
  {
    var grown := log + [Entry(o, l.Raises(c, o, now), now)];
    assert grown[|log|] == Entry(o, l.Raises(c, o, now), now) && grown[..|log|] == log;
  }

  /** What is earned is settled by the log up to that point. */
  lemma EarnedStays(log: seq<Entry>, e: Entry, k: nat)
    requires k < |log|
    ensures RaiseEarned(log + [e], k) <==> RaiseEarned(log, k)
  {
    var grown := log + [e];
    assert forall j | 0 <= j < |log| :: grown[j] == log[j];
  }

  /** The next success raises exactly if it is earned and the limit is below the cap. */
  lemma NextRaiseIff(c: Config, l: LimitState, log: seq<Entry>, o: Outcome, now: nat, raised: bool)
    requires l.streak == Streak(log) && ThrottlesKnown(l, log, now)
    ensures l.Raises(c, o, now) <==> RaiseEarned(log + [Entry(o, raised, now)], |log|) && l.limit < c.maxConcurrent
  {
    StreakLength(log);
    var grown := log + [Entry(o, raised, now)];
    assert grown[|log|] == Entry(o, raised, now);
    assert forall j | 0 <= j < |log| :: grown[j] == log[j];
    CooledIff(l, log, now);
    assert l.streak + 1 >= RECOVERY_SUCCESSES
           <==> |log| + 1 >= RECOVERY_SUCCESSES
                && forall j | |log| + 1 - RECOVERY_SUCCESSES <= j < |log| :: log[j].outcome.Success? && !log[j].raised;
  }

  lemma CooledIff(l: LimitState, log: seq<Entry>, now: nat)
    requires ThrottlesKnown(l, log, now)
    ensures (l.lastThrottle.None? || SatSub(now, l.lastThrottle.value) >= ADAPTIVE_COOLDOWN)
            <==> forall j | 0 <= j < |log| && log[j].outcome.Throttled? :: log[j].at + ADAPTIVE_COOLDOWN <= now
  {
  }

  lemma RaisesStayExact(c: Config, l: LimitState, log: seq<Entry>, o: Outcome, now: nat)
    requires l.streak == Streak(log) && l.limit == LimitFrom(c, log) && ThrottlesKnown(l, log, now) && RaisesExact(c, log)
    ensures RaisesExact(c, log + [Entry(o, l.Raises(c, o, now), now)])
  {
    var e := Entry(o, l.Raises(c, o, now), now);
    var grown := log + [e];
    forall k | 0 <= k < |grown| ensures grown[k].raised <==> RaiseEarned(grown, k) && LimitFrom(c, grown[..k]) < c.maxConcurrent {
      assert grown[..k] == log[..k];
      if k < |log| {
        EarnedStays(log, e, k);
      } else {
        assert log[..k] == log;
        NextRaiseIff(c, l, log, o, now, e.raised);
      }
    }
  }

  lemma LimitFollows(c: Config, l: LimitState, log: seq<Entry>, o: Outcome, now: nat)
    requires c.Valid() && l.limit == LimitFrom(c, log)
    ensures l.Record(c, o, now).limit == LimitFrom(c, log + [Entry(o, l.Raises(c, o, now), now)])
  {
    var grown := log + [Entry(o, l.Raises(c, o, now), now)];
    assert grown[|log|] == Entry(o, l.Raises(c, o, now), now) && grown[..|log|] == log;
  }

  lemma ThrottlesStayKnown(c: Config, l: LimitState, log: seq<Entry>, o: Outcome, now: nat)
    requires ThrottlesKnown(l, log, now) && InThePast(log, now)
    ensures ThrottlesKnown(l.Record(c, o, now), log + [Entry(o, l.Raises(c, o, now), now)], now)
    ensures InThePast(log + [Entry(o, l.Raises(c, o, now), now)], now)
  {
    var grown := log + [Entry(o, l.Raises(c, o, now), now)];
    assert grown[|log|] == Entry(o, l.Raises(c, o, now), now) && forall j | 0 <= j < |log| :: grown[j] == log[j];
    var last := l.Record(c, o, now).lastThrottle;
    if last.Some? && !o.Throttled? {
      var k :| 0 <= k < |log| && log[k].outcome.Throttled? && log[k].at == last.value;
      assert grown[k] == log[k];
    }
  }

  lemma HistoryKept(c: Config, s: System, a: Action)
    requires c.Valid() && Enabled(s, a) && WithinLimits(c, s.state) && HistoryOk(c, s)
    ensures HistoryOk(c, Do(c, s, a))
  {
    if a.Finish? && c.adaptive {
      StreakGrows(c, s.state, s.log, a.outcome, s.now);
      LimitFollows(c, s.state, s.log, a.outcome, s.now);
      RaisesStayExact(c, s.state, s.log, a.outcome, s.now);
      ThrottlesStayKnown(c, s.state, s.log, a.outcome, s.now);
    }
  }

  lemma StepKeepsInv(c: Config, s: System, a: Action)
    requires c.Valid() && Inv(c, s) && Enabled(s, a)
    ensures Inv(c, Do(c, s, a))
  {
    CountsKept(c, s, a);
    LimitsKept(c, s, a);
    WakeupsKept(c, s, a);
    HistoryKept(c, s, a);
  }

  // ---- every interleaving --------------------------------------------------

  predicate Possible(c: Config, s: System, actions: seq<Action>)
    decreases |actions|
  {
    actions == [] || (Enabled(s, actions[0]) && Possible(c, Do(c, s, actions[0]), actions[1..]))
  }

  function After(c: Config, s: System, actions: seq<Action>): System
    requires Possible(c, s, actions)
    decreases |actions|
  {
    if actions == [] then s else After(c, Do(c, s, actions[0]), actions[1..])
  }

  lemma {:induction false} InvAlways(c: Config, s: System, actions: seq<Action>)
    requires c.Valid() && Inv(c, s) && Possible(c, s, actions)
    ensures Inv(c, After(c, s, actions))
    decreases |actions|
  {
    if actions != [] {
      StepKeepsInv(c, s, actions[0]);
      InvAlways(c, Do(c, s, actions[0]), actions[1..]);
    }
  }

  ghost predicate Reachable(c: Config, s: System) {
    exists actions | Possible(c, Fresh(c), actions) :: After(c, Fresh(c), actions) == s
  }

  /** Counts, limits, wake-ups and the history of raises, in every reachable state. */
  lemma ReachableInv(c: Config, s: System)
    requires c.Valid() && Reachable(c, s)
    ensures Inv(c, s)
  {
    var actions :| Possible(c, Fresh(c), actions) && After(c, Fresh(c), actions) == s;
    InvAlways(c, Fresh(c), actions);
  }

  /** In every reachable state the limit is what the log makes of the cap, and a recorded
      result raised it if and only if the raise was earned and the limit was below the
      cap. */
  lemma RaisedIff(c: Config, s: System, k: nat)
    requires c.Valid() && Reachable(c, s) && k < |s.log|
    ensures s.log[k].raised <==> RaiseEarned(s.log, k) && LimitFrom(c, s.log[..k]) < c.maxConcurrent
    ensures s.state.limit == LimitFrom(c, s.log)
  {
    ReachableInv(c, s);
  }

  /** No deadlock: a waiter that cannot move is kept waiting by a request that still
      holds a permit or by one that is about to notify. With nothing in flight and
      nothing pending no waiter, auxiliary or not, is asleep. */
  lemma StuckWaiterHasACause(c: Config, s: System, i: nat)
    requires c.Valid() && Reachable(c, s) && i < |s.procs| && Unnotified(s, i)
    ensures s.state.inFlight > 0 || SomeoneAnnounces(s)
    ensures exists j | 0 <= j < |s.procs| :: s.procs[j].Holds() || s.procs[j].Announcing()
  {
    ReachableInv(c, s);
    if !SomeoneAnnounces(s) {
      assert !s.state.Admits(c, s.procs[i].auxiliary);
      if forall j | 0 <= j < |s.procs| :: !s.procs[j].Holds() {
        SumByZero(s.procs, Permit());
        SumByZero(s.procs, AuxPermit());
        assert false;
      }
    }
  }

  // ---- the foreground reservation ------------------------------------------

  /** A foreground request is admitted whenever fewer than the reserved number of
      foreground requests are in flight. */
  predicate ReservationHonoured(c: Config, l: LimitState) {
    l.aux <= l.inFlight && l.inFlight - l.aux < c.reserved ==> l.Admits(c, false)
  }

  /** The settings under which adaptation cannot cut into the reservation. */
  predicate ReservationSafe(c: Config) {
    !c.adaptive || c.reserved == 0 || c.maxConcurrent == c.reserved + 1
  }

  lemma SafeReservationHonoured(c: Config, s: System)
    requires c.Valid() && ReservationSafe(c) && Reachable(c, s)
    ensures ReservationHonoured(c, s.state)
  {
    ReachableInv(c, s);
  }

  /** In one state: with the auxiliary requests and the limit as they are, every
      number of foreground requests below the reservation leaves room for one more
      exactly when the auxiliary requests fit beside the whole reservation. */
  lemma ReservationHonouredIff(c: Config, aux: nat, limit: nat)
    requires c.reserved > 0
    ensures (forall l: LimitState | l.aux == aux && l.limit == limit :: ReservationHonoured(c, l))
            <==> aux + c.reserved <= limit
  {
    if aux + c.reserved > limit {
      var l := LimitState(aux + c.reserved - 1, aux, limit, 0, None);
      assert !ReservationHonoured(c, l);
    }
  }

  // The promise fails for every other configuration: fill the auxiliary slots, let
  // one foreground request be throttled and leave, and fill the rest.

  lemma {:induction false} AfterConcat(c: Config, s: System, xs: seq<Action>, ys: seq<Action>)
    requires Possible(c, s, xs) && Possible(c, After(c, s, xs), ys)
    ensures Possible(c, s, xs + ys) && After(c, s, xs + ys) == After(c, After(c, s, xs), ys)
    decreases |xs|
  {
    if xs == [] {
      assert xs + ys == ys;
    } else {
      assert (xs + ys)[0] == xs[0] && (xs + ys)[1..] == xs[1..] + ys;
      AfterConcat(c, Do(c, s, xs[0]), xs[1..], ys);
    }
  }

  lemma AfterOne(c: Config, s: System, a: Action)
    requires Enabled(s, a)
    ensures Possible(c, s, [a]) && After(c, s, [a]) == Do(c, s, a)
  {
    assert [a][0] == a && [a][1..] == [];
    assert Possible(c, Do(c, s, a), []) && After(c, Do(c, s, a), []) == Do(c, s, a);
  }

  lemma StepReachable(c: Config, s: System, a: Action)
    requires Reachable(c, s) && Enabled(s, a)
    ensures Reachable(c, Do(c, s, a))
  {
    var actions :| Possible(c, Fresh(c), actions) && After(c, Fresh(c), actions) == s;
    AfterOne(c, s, a);
    AfterConcat(c, Fresh(c), actions, [a]);
  }

  /** One more request gets in. */
  lemma AdmitOne(c: Config, s: System, auxiliary: bool) returns (t: System)
    requires c.Valid() && Reachable(c, s) && s.state.Admits(c, auxiliary)
    ensures Reachable(c, t) && t.state == s.state.Enter(auxiliary)
    ensures |t.procs| == |s.procs| + 1 && t.procs[|s.procs|] == Process(auxiliary, Running)
  {
    ReachableInv(c, s);
    var i := |s.procs|;
    var s1 := Do(c, s, Arrive(auxiliary));
    StepReachable(c, s, Arrive(auxiliary));
    var s2 := Do(c, s1, Register(i));
    StepReachable(c, s1, Register(i));
    t := Do(c, s2, Check(i));
    StepReachable(c, s2, Check(i));
  }

  lemma {:induction false} AdmitMany(c: Config, s: System, auxiliary: bool, n: nat) returns (t: System)
    requires c.Valid() && Reachable(c, s)
    requires s.state.inFlight + n <= s.state.limit && (auxiliary ==> s.state.aux + n + c.reserved <= s.state.limit)
    ensures Reachable(c, t)
    ensures t.state == s.state.(inFlight := s.state.inFlight + n, aux := s.state.aux + if auxiliary then n else 0)
    decreases n
  {
    if n == 0 {
      t := s;
    } else {
      var one := AdmitOne(c, s, auxiliary);
      t := AdmitMany(c, one, auxiliary, n - 1);
    }
  }

  /** A foreground request comes, is throttled and leaves: the limit is one lower. */
  lemma ThrottleOne(c: Config, s: System) returns (t: System)
    requires c.Valid() && c.adaptive && Reachable(c, s) && s.state.Admits(c, false)
    ensures Reachable(c, t)
    ensures t.state.inFlight == s.state.inFlight && t.state.aux == s.state.aux
    ensures t.state.limit == Max(SatSub(s.state.limit, 1), c.Floor())
  {
    var i := |s.procs|;
    var s1 := AdmitOne(c, s, false);
    var s2 := Do(c, s1, Finish(i, Throttled));
    StepReachable(c, s1, Finish(i, Throttled));
    var s3 := Do(c, s2, Notify(i));
    StepReachable(c, s2, Notify(i));
    t := Do(c, s3, Release(i));
    StepReachable(c, s3, Release(i));
  }

  lemma UnsafeReservationBroken(c: Config) returns (s: System)
    requires c.Valid() && !ReservationSafe(c)
    ensures Reachable(c, s) && !ReservationHonoured(c, s.state)
    ensures s.state.aux == c.maxConcurrent - c.reserved && s.state.limit == c.maxConcurrent - 1
  {
    assert Possible(c, Fresh(c), []) && After(c, Fresh(c), []) == Fresh(c);
    assert Reachable(c, Fresh(c));
    var s1 := AdmitMany(c, Fresh(c), true, c.maxConcurrent - c.reserved);
    var s2 := ThrottleOne(c, s1);
    s := AdmitMany(c, s2, false, c.reserved - 1);
  }

  /** The reservation is kept in every reachable state exactly under these settings. */
  lemma ReservationHonouredAlwaysIff(c: Config)
    requires c.Valid()
    ensures (forall s | Reachable(c, s) :: ReservationHonoured(c, s.state)) <==> ReservationSafe(c)
  {
    if ReservationSafe(c) {
      forall s | Reachable(c, s) ensures ReservationHonoured(c, s.state) {
        SafeReservationHonoured(c, s);
      }
    } else {
      var s := UnsafeReservationBroken(c);
      assert Reachable(c, s) && !ReservationHonoured(c, s.state);
    }
  }

  // ---- the shared cell -----------------------------------------------------

  /** The state behind the limiter's lock; each method is one critical section. */
  class LimitCell {
    const config: Config
    var inFlight: nat
    var auxiliaryInFlight: nat
    var currentLimit: nat
    var successStreak: nat
    var lastThrottle: Option<nat>

    function State(): LimitState
      reads this
    {
      LimitState(inFlight, auxiliaryInFlight, currentLimit, successStreak, lastThrottle)
    }

    constructor (config: Config)
      requires config.Valid()
      ensures this.config == config && State() == Initial(config)
    {
      this.config := config;
      inFlight, auxiliaryInFlight, currentLimit, successStreak, lastThrottle := 0, 0, config.maxConcurrent, 0, None;
    }

    /** One pass of the acquire loop: admitted, or told to wait. */
    method TryAcquire(auxiliary: bool) returns (admitted: bool)
      modifies this
      ensures admitted == old(State()).Heal(config).Admits(config, auxiliary)
      ensures State() == if admitted then old(State()).Heal(config).Enter(auxiliary) else old(State()).Heal(config)
    {
      var floor := Min(config.reserved + 1, config.maxConcurrent);
      currentLimit := Max(currentLimit, floor);
      var auxiliaryLimit := SatSub(currentLimit, config.reserved);
      admitted := inFlight < currentLimit && (!auxiliary || auxiliaryInFlight < auxiliaryLimit);
      if admitted {
        inFlight := inFlight + 1;
        if auxiliary {
          auxiliaryInFlight := auxiliaryInFlight + 1;
        }
      }
    }

    method ReleasePermit(auxiliary: bool)
      modifies this
      ensures State() == old(State()).Exit(auxiliary)
    {
      inFlight := SatSub(inFlight, 1);
      if auxiliary {
        auxiliaryInFlight := SatSub(auxiliaryInFlight, 1);
      }
    }

    /** Returns whether the waiters are to be notified. */
    method RecordResult(outcome: Outcome, now: nat) returns (notify: bool)
      modifies this
      ensures notify == config.adaptive
      ensures State() == if config.adaptive then old(State()).Record(config, outcome, now) else old(State())
    {
      if !config.adaptive {
        return false;
      }
      if outcome.Throttled? {
        var floor := Min(config.reserved + 1, config.maxConcurrent);
        currentLimit := Max(SatSub(currentLimit, 1), floor);
        successStreak := 0;
        lastThrottle := Some(now);
      } else if outcome.Success? {
        successStreak := successStreak + 1;
        var cooled := lastThrottle.None? || SatSub(now, lastThrottle.value) >= ADAPTIVE_COOLDOWN;
        if cooled && successStreak >= RECOVERY_SUCCESSES && currentLimit < config.maxConcurrent {
          currentLimit := currentLimit + 1;
          successStreak := 0;
        }
      } else {
        successStreak := 0;
      }
      notify := true;
    }
  }
}
