/** One inference operation's allowance of physical sends and recovery waits, shared
by every clone of the request. */
module Attempts {
  import opened Common

  datatype Policy = Policy(maxAttempts: nat, maxBackoff: nat) {
    predicate Representable() { maxAttempts <= U32_MAX }
  }

  function SatAdd32(a: nat, b: nat): nat { Min(a + b, U32_MAX) }

  /** The shared counters. `identities` counts the sends of each distinct payload. */
  datatype State = State(attempts: nat, reserved: nat, fanout: Option<nat>, backoff: nat, identities: map<string, nat>) {
    function Limit(p: Policy): nat {
      if fanout.Some? && p.maxAttempts > 0 then SatAdd32(fanout.value, p.maxAttempts - 1) else p.maxAttempts
    }

    predicate Available(p: Policy) { attempts < SatSub(Limit(p), reserved) }

    function Room(p: Policy): nat { SatSub(Limit(p), SatAdd32(attempts, reserved)) }

    function Sends(identity: string): nat { if identity in identities then identities[identity] else 0 }

    /** A physical send of one payload. */
    function Send(identity: string): State {
      this.(attempts := attempts + 1, identities := identities[identity := Sends(identity) + 1])
    }
  }

  const FRESH: State := State(0, 0, None, 0, map[])

  // ---- every interleaving --------------------------------------------------

  /** The ledger with the reservations that are alive, by name. */
  datatype System = System(state: State, live: map<nat, nat>)

  datatype Action =
    | DoSend(identity: string)
    | DoReserve(name: nat, count: nat)
    | DoDrop(name: nat)
    | DoPlan(dispatches: nat)
    | DoBackoff(delay: nat)

  /** The calls that succeed; a refused call changes nothing and is not a step. */
  predicate Enabled(p: Policy, s: System, a: Action) {
    match a
    case DoSend(_) => s.state.Available(p)
    case DoReserve(name, _) => name !in s.live
    case DoDrop(name) => name in s.live
    case DoPlan(n) => 0 < n <= U32_MAX && (s.state.fanout.None? || s.state.fanout.value == n)
    case DoBackoff(delay) => delay <= SatSub(p.maxBackoff, s.state.backoff)
  }

  function Do(p: Policy, s: System, a: Action): System
    requires Enabled(p, s, a)
  {
    match a
    case DoSend(identity) => s.(state := s.state.Send(identity))
    case DoReserve(name, count) =>
      var granted := Min(count, s.state.Room(p));
      System(s.state.(reserved := s.state.reserved + granted), s.live[name := granted])
    case DoDrop(name) =>
      System(s.state.(reserved := SatSub(s.state.reserved, s.live[name])), s.live - {name})
    case DoPlan(n) => s.(state := s.state.(fanout := Some(n)))
    case DoBackoff(delay) => s.(state := s.state.(backoff := s.state.backoff + delay))
  }

  ghost predicate Inv(p: Policy, s: System) {
    && s.state.attempts + s.state.reserved <= s.state.Limit(p) <= U32_MAX
    && s.state.reserved == Total(s.live)
    && s.state.backoff <= p.maxBackoff
    && Total(s.state.identities) == s.state.attempts
    && (s.state.fanout.Some? ==> 0 < s.state.fanout.value <= U32_MAX)
  }

  lemma StepKeepsInv(p: Policy, s: System, a: Action)
    requires p.Representable() && Inv(p, s) && Enabled(p, s, a)
    ensures Inv(p, Do(p, s, a))
    ensures s.state.Limit(p) <= Do(p, s, a).state.Limit(p)
    ensures s.state.attempts <= Do(p, s, a).state.attempts && s.state.backoff <= Do(p, s, a).state.backoff
  {
    match a
    case DoSend(identity) => TotalUpdate(s.state.identities, identity, s.state.Sends(identity) + 1);
    case DoReserve(name, count) => TotalUpdate(s.live, name, Min(count, s.state.Room(p)));
    case DoDrop(name) => SumOverRemove(s.live, name, Identity());
    case DoPlan(n) =>
    case DoBackoff(delay) =>
  }

  predicate Possible(p: Policy, s: System, actions: seq<Action>)
    decreases actions
  {
    actions == [] || (Enabled(p, s, actions[0]) && Possible(p, Do(p, s, actions[0]), actions[1..]))
  }

  function After(p: Policy, s: System, actions: seq<Action>): System
    requires Possible(p, s, actions)
    decreases actions
  {
    if actions == [] then s else After(p, Do(p, s, actions[0]), actions[1..])
  }

  /** In every interleaving of sends, reservations, drops and fan-out planning the
      allowance is never exceeded, the limit never falls, spent backoff and sends
      never come back, and the per-payload counters sum to the sends. */
  lemma {:induction false} AlwaysWithinAllowance(p: Policy, s: System, actions: seq<Action>)
    requires p.Representable() && Inv(p, s) && Possible(p, s, actions)
    ensures var t := After(p, s, actions);
            && Inv(p, t) && s.state.Limit(p) <= t.state.Limit(p)
            && s.state.attempts <= t.state.attempts && s.state.backoff <= t.state.backoff
    decreases actions
  {
    if actions != [] {
      StepKeepsInv(p, s, actions[0]);
      AlwaysWithinAllowance(p, Do(p, s, actions[0]), actions[1..]);
    }
  }

  /** A reservation that nobody drops stays alive with what it was granted. */
  lemma {:induction false} ReservationStays(p: Policy, s: System, actions: seq<Action>, name: nat)
    requires Possible(p, s, actions) && name in s.live
    requires forall i | 0 <= i < |actions| :: actions[i] != DoDrop(name)
    ensures var t := After(p, s, actions); name in t.live && t.live[name] == s.live[name]
    decreases actions
  {
    if actions != [] {
      ReservationStays(p, Do(p, s, actions[0]), actions[1..], name);
    }
  }

  /** Dropping a reservation of at least one send makes a send available. */
  lemma DropMakesAvailable(p: Policy, s: System, name: nat)
    requires Inv(p, s) && name in s.live && s.live[name] >= 1
    ensures Do(p, s, DoDrop(name)).state.Available(p)
  {
    SumOverRemove(s.live, name, Identity());
  }

  /** The aggregator always gets its send: on a fresh operation of a policy that
      allows any send, the route plans its fan-out and reserves one attempt; then,
      whatever the reference calls do with the rest, a send is available as soon as
      the reservation is dropped. */
  lemma AggregatorAlwaysHasASend(p: Policy, dispatches: nat, name: nat, actions: seq<Action>)
    requires p.Representable() && p.maxAttempts >= 1 && 0 < dispatches <= U32_MAX
    requires var reserved := Do(p, Do(p, System(FRESH, map[]), DoPlan(dispatches)), DoReserve(name, 1));
             Possible(p, reserved, actions)
    requires forall i | 0 <= i < |actions| :: actions[i] != DoDrop(name)
    ensures var reserved := Do(p, Do(p, System(FRESH, map[]), DoPlan(dispatches)), DoReserve(name, 1));
            var spent := After(p, reserved, actions);
            name in spent.live && Do(p, spent, DoDrop(name)).state.Available(p)
  {
    var initial := System(FRESH, map[]);
    assert Inv(p, initial);
    var planned := Do(p, initial, DoPlan(dispatches));
    StepKeepsInv(p, initial, DoPlan(dispatches));
    StepKeepsInv(p, planned, DoReserve(name, 1));
    var reserved := Do(p, planned, DoReserve(name, 1));
    assert reserved.live[name] == 1;
    AlwaysWithinAllowance(p, reserved, actions);
    ReservationStays(p, reserved, actions, name);
    DropMakesAvailable(p, After(p, reserved, actions), name);
  }

  /** The sends an operation may make: what the policy allows, and one more for each
      further dispatch of a planned fan-out, in 32 bits; a policy of none allows none. */
  function Allowance(maxAttempts: nat, fanout: Option<nat>): nat {
    if maxAttempts == 0 then 0
    else if fanout.None? then maxAttempts
    else if fanout.value + maxAttempts - 1 <= 4294967295 then fanout.value + maxAttempts - 1
    else 4294967295
  }

  /** A row of sends is possible if and only if the allowance has room for all of it beside
      the sends made and the attempts reserved. */
  lemma {:induction false} SendsPossibleIff(p: Policy, s: System, sends: seq<Action>)
    requires p.Representable() && Inv(p, s) && forall i | 0 <= i < |sends| :: sends[i].DoSend?
    ensures Possible(p, s, sends)
            <==> sends == [] || s.state.attempts + s.state.reserved + |sends| <= Allowance(p.maxAttempts, s.state.fanout)
    decreases |sends|
  {
    if sends != [] && Enabled(p, s, sends[0]) {
      assert sends[0].DoSend?;
      StepKeepsInv(p, s, sends[0]);
      SendsPossibleIff(p, Do(p, s, sends[0]), sends[1..]);
    }
  }

  // ---- the execution object ------------------------------------------------

  datatype SendOutcome =
    | Answer(status: nat)
    | Redirect(code: nat, target: RedirectTarget)
    | Broken(replayable: bool, waitCut: bool)
    | DeadlinePassed

  datatype RedirectTarget = Malformed | CrossOrigin | SameOrigin(identity: string)

  datatype DispatchError = AttemptsExhausted | BackoffExhausted | DeadlineExceeded | TransportFailure
    | InvalidRedirect | UnsafeRedirect

  datatype PlanError = NoDispatch | PlanChanged

  /** The loop goes round again after this outcome. */
  predicate Replays(o: SendOutcome, replay: bool) {
    replay && (o == Broken(true, false) || (o.Redirect? && o.target.SameOrigin?))
  }

  /** The wait after this outcome may be begun: a send and the wait itself are left. */
  predicate CanWait(p: Policy, sent: State, o: SendOutcome) {
    sent.Available(p) && sent.backoff + WaitAfter(o, sent.attempts) <= p.maxBackoff
  }

  /** The send with this outcome is the last one; `sent` is the ledger right after it. */
  predicate Stops(p: Policy, sent: State, o: SendOutcome, replay: bool) {
    !Replays(o, replay) || (o.Broken? && !CanWait(p, sent, o))
  }

  /** What the loop answers when it stops there. */
  function StopsWith(p: Policy, sent: State, o: SendOutcome, replay: bool): Result<nat, DispatchError> {
    match o
    case DeadlinePassed => Err(DeadlineExceeded)
    case Answer(status) => Ok(status)
    case Redirect(code, target) =>
      if !replay then Ok(code) else if target.Malformed? then Err(InvalidRedirect) else Err(UnsafeRedirect)
    case Broken(replayable, _) =>
      if !replay || !replayable then Err(TransportFailure)
      else if !sent.Available(p) then Err(AttemptsExhausted)
      else if !CanWait(p, sent, o) then Err(BackoffExhausted)
      else Err(DeadlineExceeded)
  }

  /** What is paid for waiting after this outcome, cut short or not. */
  function WaitPaid(p: Policy, sent: State, o: SendOutcome, replay: bool): nat {
    if replay && o.Broken? && o.replayable && CanWait(p, sent, o) then WaitAfter(o, sent.attempts) else 0
  }

  /** How a dispatch of `n` sends from `start` ended in `s`; `paid` was the backoff spent
      at its last send. It stops there for the reason it answers, or after a redirect it
      would follow finds nothing available; with nothing available at the start it sends
      nothing. */
  ghost predicate Concluded(p: Policy, start: State, n: nat, paid: nat, s: State, last: SendOutcome, replay: bool,
                            r: Result<nat, DispatchError>) {
    if n == 0 then !start.Available(p) && s == start && r == Err(AttemptsExhausted)
    else
      var sent := s.(backoff := paid);
      && s.backoff == paid + WaitPaid(p, sent, last, replay)
      && (if Stops(p, sent, last, replay) then r == StopsWith(p, sent, last, replay)
          else last.Redirect? && !s.Available(p) && r == Err(AttemptsExhausted))
  }

  /** A dispatch of `n` sends from `start` goes on from `s`. */
  ghost predicate GoesOn(p: Policy, start: State, n: nat, paid: nat, s: State, last: SendOutcome, replay: bool) {
    if n == 0 then s == start
    else
      var sent := s.(backoff := paid);
      !Stops(p, sent, last, replay) && s.backoff == paid + WaitPaid(p, sent, last, replay)
  }

  /** A dispatch that would go on and finds nothing available is concluded. */
  lemma NothingLeft(p: Policy, start: State, n: nat, paid: nat, s: State, last: SendOutcome, replay: bool)
    requires GoesOn(p, start, n, paid, s, last, replay) && !s.Available(p)
    ensures Concluded(p, start, n, paid, s, last, replay, Err(AttemptsExhausted))
  {
  }

  /** What happens to the `k`th physical attempt. */
  function At(world: nat -> SendOutcome, k: nat): SendOutcome { world(k) }

  /** The recovery wait after the `k`th physical attempt. */
  function WaitAfter(o: SendOutcome, k: nat): nat {
    if o.Broken? && o.replayable then 500 * Power2(Min(k, 3)) else 0
  }

  /** The waits after the attempts from `base + 1` to `base + n`. */
  ghost function Waits(world: nat -> SendOutcome, base: nat, n: nat): nat {
    if n == 0 then 0 else Waits(world, base, n - 1) + WaitAfter(At(world, base + n), base + n)
  }

  /** The waits paid for when the `n`th send was made. */
  ghost function WaitsBefore(world: nat -> SendOutcome, base: nat, n: nat): nat {
    if n == 0 then 0 else Waits(world, base, n - 1)
  }

  function NextPayload(o: SendOutcome, identity: string): string {
    if o.Redirect? && o.target.SameOrigin? then o.target.identity else identity
  }

  /** What the `n`th attempt sends: a same-origin redirect changes the payload. */
  ghost function Payload(first: string, world: nat -> SendOutcome, base: nat, n: nat): string
    requires n >= 1
  {
    if n == 1 then first else NextPayload(At(world, base + n - 1), Payload(first, world, base, n - 1))
  }

  /** The ledger after `n` sends. */
  ghost function Sent(s: State, first: string, world: nat -> SendOutcome, n: nat): (t: State)
    ensures t.attempts == s.attempts + n && t.reserved == s.reserved && t.fanout == s.fanout && t.backoff == s.backoff
  {
    if n == 0 then s else Sent(s, first, world, n - 1).Send(Payload(first, world, s.attempts, n))
  }

  /** `s` has made `n` replayed sends since `start` and paid for all their waits. */
  ghost predicate Replayed(start: State, first: string, replay: bool, world: nat -> SendOutcome, n: nat, s: State) {
    && s == Sent(start, first, world, n).(backoff := start.backoff + Waits(world, start.attempts, n))
    && (forall k | start.attempts < k <= start.attempts + n :: Replays(At(world, k), replay))
    && (!replay ==> n == 0)
  }

  /** `s` has made `n` sends since `start`, all but the last of them replayed. */
  ghost predicate Dispatched(start: State, first: string, replay: bool, world: nat -> SendOutcome, n: nat, s: State) {
    && s == Sent(start, first, world, n).(backoff := s.backoff)
    && (forall k | start.attempts < k < start.attempts + n :: Replays(At(world, k), replay))
    && (!replay ==> n <= 1)
    && start.backoff + (if n > 0 then Waits(world, start.attempts, n - 1) else 0) <= s.backoff
       <= start.backoff + Waits(world, start.attempts, n)
  }

  /** After `n` sends from `start` the dispatch stands at `s` and goes on. */
  ghost predicate Underway(p: Policy, start: State, first: string, replay: bool, world: nat -> SendOutcome, n: nat, s: State) {
    && Replayed(start, first, replay, world, n, s)
    && GoesOn(p, start, n, start.backoff + WaitsBefore(world, start.attempts, n), s, At(world, s.attempts), replay)
  }

  /** After `n` sends from `start` the dispatch ended at `s` with this answer. */
  ghost predicate Ended(p: Policy, start: State, first: string, replay: bool, world: nat -> SendOutcome, n: nat, s: State,
                        r: Result<nat, DispatchError>) {
    && Dispatched(start, first, replay, world, n, s)
    && Concluded(p, start, n, start.backoff + WaitsBefore(world, start.attempts, n), s, At(world, s.attempts), replay, r)
  }

  /** The two predicates and the payloads of one dispatch, as values. */
  datatype Track = Track(going: (nat, State) -> bool, done: (nat, State, Result<nat, DispatchError>) -> bool, payload: nat -> string) {
    predicate Going(n: nat, s: State) { going(n, s) }

    predicate Done(n: nat, s: State, r: Result<nat, DispatchError>) { done(n, s, r) }

    function Payload(n: nat): string { payload(n) }
  }

  ghost predicate Tracks(track: Track, p: Policy, start: State, first: string, replay: bool, world: nat -> SendOutcome) {
    && (forall n, s {:trigger Underway(p, start, first, replay, world, n, s)} ::
          Underway(p, start, first, replay, world, n, s) == track.Going(n, s))
    && (forall n, s, r {:trigger Ended(p, start, first, replay, world, n, s, r)} ::
          Ended(p, start, first, replay, world, n, s, r) == track.Done(n, s, r))
    && (forall n: nat {:trigger Payload(first, world, start.attempts, n)} | n > 0 ::
          Payload(first, world, start.attempts, n) == track.Payload(n))
  }

  ghost function TrackOf(p: Policy, start: State, first: string, replay: bool, world: nat -> SendOutcome): (track: Track)
    ensures Tracks(track, p, start, first, replay, world)
  {
    Track((n: nat, s) => Underway(p, start, first, replay, world, n, s),
          (n: nat, s, r) => Ended(p, start, first, replay, world, n, s, r),
          (n: nat) => if n == 0 then first else Payload(first, world, start.attempts, n))
  }

  lemma NoSendYet(track: Track, p: Policy, start: State, first: string, replay: bool, world: nat -> SendOutcome)
    requires Tracks(track, p, start, first, replay, world)
    ensures track.Going(0, start) && track.Payload(1) == first
  {
    assert Underway(p, start, first, replay, world, 0, start);
    assert Payload(first, world, start.attempts, 1) == first;
  }

  lemma NoMoreSends(track: Track, p: Policy, start: State, first: string, replay: bool, world: nat -> SendOutcome, n: nat, s: State)
    requires Tracks(track, p, start, first, replay, world) && track.Going(n, s) && !s.Available(p)
    ensures track.Done(n, s, Err(AttemptsExhausted))
  {
    assert Underway(p, start, first, replay, world, n, s);
    NothingLeft(p, start, n, start.backoff + WaitsBefore(world, start.attempts, n), s, At(world, s.attempts), replay);
    assert Ended(p, start, first, replay, world, n, s, Err(AttemptsExhausted));
  }

  /** One more send of the payload whose turn it is: the dispatch ends there or goes on. */
  lemma OneMoreSend(track: Track, p: Policy, start: State, first: string, replay: bool, world: nat -> SendOutcome, n: nat, s: State, sent: State, t: State)
    requires Tracks(track, p, start, first, replay, world) && track.Going(n, s)
    requires sent == s.Send(track.Payload(n + 1))
    requires t == sent.(backoff := sent.backoff + WaitPaid(p, sent, At(world, sent.attempts), replay))
    ensures t.attempts == start.attempts + n + 1
    ensures Stops(p, sent, At(world, t.attempts), replay) ==> track.Done(n + 1, t, StopsWith(p, sent, At(world, t.attempts), replay))
    ensures !Stops(p, sent, At(world, t.attempts), replay) ==>
              track.Going(n + 1, t) && track.Payload(n + 2) == NextPayload(At(world, t.attempts), track.Payload(n + 1))
  {
    var o := At(world, sent.attempts);
    assert Underway(p, start, first, replay, world, n, s);
    assert Payload(first, world, start.attempts, n + 1) == track.Payload(n + 1);
    assert Payload(first, world, start.attempts, n + 2) == track.Payload(n + 2);
    SendIsNext(start, first, replay, world, n, s, t);
    assert WaitsBefore(world, start.attempts, n + 1) == Waits(world, start.attempts, n);
    if Stops(p, sent, o, replay) {
      assert Ended(p, start, first, replay, world, n + 1, t, StopsWith(p, sent, o, replay));
    } else {
      assert Underway(p, start, first, replay, world, n + 1, t);
    }
  }

  lemma SendIsNext(start: State, first: string, replay: bool, world: nat -> SendOutcome, n: nat, s: State, t: State)
    requires Replayed(start, first, replay, world, n, s)
    requires t == s.Send(Payload(first, world, start.attempts, n + 1)).(backoff := t.backoff)
    requires s.backoff <= t.backoff <= s.backoff + WaitAfter(At(world, t.attempts), t.attempts)
    ensures Dispatched(start, first, replay, world, n + 1, t)
    ensures Replays(At(world, t.attempts), replay) && t.backoff == s.backoff + WaitAfter(At(world, t.attempts), t.attempts)
            ==> Replayed(start, first, replay, world, n + 1, t)
  {
  }

  // ---- what the end of a dispatch means ------------------------------------

  predicate SameOriginRedirect(o: SendOutcome) { o.Redirect? && o.target.SameOrigin? }

  /** No send is left beside those made and reserved. */
  predicate UsedUp(p: Policy, s: State) { s.attempts + s.reserved >= Allowance(p.maxAttempts, s.fanout) }

  /** The waits after a broken send that may be replayed: one second, then two, then four;
      after any other outcome there is none. */
  lemma WaitTable(o: SendOutcome, k: nat)
    requires k >= 1
    ensures WaitAfter(o, k) == if !(o.Broken? && o.replayable) then 0 else if k == 1 then 1000 else if k == 2 then 2000 else 4000
  {
    assert Power2(1) == 2 && Power2(2) == 4;
    assert Power2(3) == 8;
  }

  /** The answer that a dispatch gives for its last send, `waited` being the backoff paid
      for when that send was made. */
  ghost predicate AnswersTo(p: Policy, o: SendOutcome, replay: bool, s: State, waited: nat, r: Result<nat, DispatchError>) {
    match o
    case DeadlinePassed => r == Err(DeadlineExceeded)
    case Answer(status) => r == Ok(status)
    case Redirect(code, Malformed) => r == if replay then Err(InvalidRedirect) else Ok(code)
    case Redirect(code, CrossOrigin) => r == if replay then Err(UnsafeRedirect) else Ok(code)
    case Redirect(code, SameOrigin(_)) => if replay then r == Err(AttemptsExhausted) && UsedUp(p, s) else r == Ok(code)
    case Broken(replayable, waitCut) =>
      if !replay || !replayable then r == Err(TransportFailure)
      else if UsedUp(p, s) then r == Err(AttemptsExhausted)
      else if waited + WaitAfter(o, s.attempts) > p.maxBackoff then r == Err(BackoffExhausted)
      else r == Err(DeadlineExceeded) && waitCut
  }

  lemma UsedUpIff(p: Policy, s: State)
    requires p.Representable() && (s.fanout.Some? ==> 0 < s.fanout.value <= U32_MAX)
    ensures UsedUp(p, s) <==> !s.Available(p)
  {
  }

  /** All sends of a dispatch but the last were replayed: broken with a wait that was not
      cut short, or redirected within the origin. Its answer fits the last send, or, with
      no send at all, says that none was left. */
  lemma EndedMeans(p: Policy, start: State, first: string, replay: bool, world: nat -> SendOutcome, n: nat, s: State,
                   r: Result<nat, DispatchError>)
    requires p.Representable() && (start.fanout.Some? ==> 0 < start.fanout.value <= U32_MAX)
    requires Ended(p, start, first, replay, world, n, s, r)
    ensures s.attempts == start.attempts + n && s.fanout == start.fanout && s.reserved == start.reserved
    ensures forall k | start.attempts < k < s.attempts :: replay && (world(k) == Broken(true, false) || SameOriginRedirect(world(k)))
    ensures n == 0 ==> UsedUp(p, start) && r == Err(AttemptsExhausted)
    ensures n > 0 ==> AnswersTo(p, world(s.attempts), replay, s, start.backoff + WaitsBefore(world, start.attempts, n), r)
  {
    UsedUpIff(p, start);
    UsedUpIff(p, s);
    forall k | start.attempts < k < s.attempts ensures replay && (world(k) == Broken(true, false) || SameOriginRedirect(world(k))) {
      assert Replays(At(world, k), replay);
    }
  }

  /** A dispatch sends the payload it was given until a redirect within the origin, and
      then what the latest one of these asks for. */
  lemma {:induction false} PayloadIs(first: string, world: nat -> SendOutcome, base: nat, n: nat)
    requires n >= 1
    ensures (forall k | base < k < base + n :: !SameOriginRedirect(world(k))) ==> Payload(first, world, base, n) == first
    ensures forall j | base < j < base + n && SameOriginRedirect(world(j)) && (forall k | j < k < base + n :: !SameOriginRedirect(world(k))) ::
              Payload(first, world, base, n) == world(j).target.identity
  {
    if n > 1 {
      PayloadIs(first, world, base, n - 1);
    }
  }

  ghost function SentAs(first: string, world: nat -> SendOutcome, base: nat, n: nat, identity: string): set<nat> {
    set k: nat | 1 <= k <= n && Payload(first, world, base, k) == identity
  }

  lemma SentAsNext(first: string, world: nat -> SendOutcome, base: nat, n: nat, identity: string)
    requires n >= 1
    ensures |SentAs(first, world, base, n, identity)|
            == |SentAs(first, world, base, n - 1, identity)| + if Payload(first, world, base, n) == identity then 1 else 0
  {
    var before := SentAs(first, world, base, n - 1, identity);
    assert SentAs(first, world, base, n, identity) == before + if Payload(first, world, base, n) == identity then {n} else {};
  }

  lemma SendCounts(s: State, sent: string, identity: string)
    ensures s.Send(sent).Sends(identity) == s.Sends(identity) + if sent == identity then 1 else 0
  {
  }

  /** The ledger counts each payload once for each time it was sent. */
  lemma {:induction false} SentCounts(s: State, first: string, world: nat -> SendOutcome, n: nat, identity: string)
    ensures Sent(s, first, world, n).Sends(identity) == s.Sends(identity) + |SentAs(first, world, s.attempts, n, identity)|
  {
    if n == 0 {
      assert SentAs(first, world, s.attempts, 0, identity) == {};
    } else {
      SentCounts(s, first, world, n - 1, identity);
      SendCounts(Sent(s, first, world, n - 1), Payload(first, world, s.attempts, n), identity);
      SentAsNext(first, world, s.attempts, n, identity);
    }
  }

  class RequestExecution {
    const policy: Policy
    var state: State
    /** The reservations that are alive. */
    ghost var live: map<nat, nat>

    ghost predicate Valid()
      reads this
    {
      policy.Representable() && Inv(policy, System(state, live))
    }

    constructor (policy: Policy)
      requires policy.Representable()
      ensures Valid() && this.policy == policy && state == FRESH && live == map[]
    {
      this.policy := policy;
      state := FRESH;
      live := map[];
    }

    method PlanFanout(dispatches: nat) returns (r: Result<(), PlanError>)
      requires Valid() && dispatches <= U32_MAX
      modifies this`state
      ensures Valid()
      ensures r.Ok? <==> dispatches > 0 && (old(state.fanout).None? || old(state.fanout) == Some(dispatches))
      ensures state == if r.Ok? then old(state).(fanout := Some(dispatches)) else old(state)
      ensures old(state.Limit(policy)) <= state.Limit(policy)
    {
      if dispatches == 0 {
        return Err(NoDispatch);
      }
      if state.fanout.Some? && state.fanout.value != dispatches {
        return Err(PlanChanged);
      }
      StepKeepsInv(policy, System(state, live), DoPlan(dispatches));
      state := state.(fanout := Some(dispatches));
      r := Ok(());
    }

    /** Reserves at most what is left; the granted count travels with the guard. */
    method Reserve(count: nat, ghost name: nat) returns (granted: nat)
      requires Valid() && name !in live
      modifies this
      ensures Valid() && live == old(live)[name := granted]
      ensures state == old(state).(reserved := old(state.reserved) + granted)
      ensures granted == Min(count, old(state.Limit(policy) - state.attempts - state.reserved))
    {
      granted := Min(count, state.Room(policy));
      StepKeepsInv(policy, System(state, live), DoReserve(name, count));
      state := state.(reserved := state.reserved + granted);
      live := live[name := granted];
    }

    method DropReservation(granted: nat, ghost name: nat)
      requires Valid() && name in live && live[name] == granted
      modifies this
      ensures Valid() && live == old(live) - {name}
      ensures old(state.reserved) >= granted && state == old(state).(reserved := old(state.reserved) - granted)
    {
      StepKeepsInv(policy, System(state, live), DoDrop(name));
      SumOverRemove(live, name, Identity());
      state := state.(reserved := state.reserved - granted);
      live := live - {name};
    }

    /** A wait is paid for when it begins; being dropped in the middle refunds nothing. */
    method Backoff(delay: nat) returns (r: Result<(), DispatchError>)
      requires Valid()
      modifies this`state
      ensures Valid()
      ensures r.Ok? <==> old(state.backoff) + delay <= policy.maxBackoff
      ensures r.Err? ==> r.error == BackoffExhausted
      ensures state == if r.Ok? then old(state).(backoff := old(state.backoff) + delay) else old(state)
    {
      if delay > SatSub(policy.maxBackoff, state.backoff) {
        return Err(BackoffExhausted);
      }
      state := state.(backoff := state.backoff + delay);
      r := Ok(());
    }

    /** One send, or the refusal that the allowance is used up. */
    method TakeAttempt(identity: string) returns (ok: bool)
      requires Valid()
      modifies this`state
      ensures Valid() && ok == old(state.Available(policy))
      ensures state == if ok then old(state).Send(identity) else old(state)
    {
      ok := state.Available(policy);
      if ok {
        StepKeepsInv(policy, System(state, live), DoSend(identity));
        state := state.Send(identity);
      }
    }

    /** One pass of the dispatch loop: what to send next, or the answer. */
    method DispatchOnce(identity: string, replay: bool, outcome: SendOutcome)
      returns (next: Option<string>, r: Result<nat, DispatchError>)
      requires Valid()
      modifies this`state
      ensures Valid()
      ensures !old(state.Available(policy)) ==> next.None? && r == Err(AttemptsExhausted) && state == old(state)
      ensures old(state.Available(policy)) ==>
                var sent := old(state).Send(identity);
                && state == sent.(backoff := sent.backoff + WaitPaid(policy, sent, outcome, replay))
                && (next.None? <==> Stops(policy, sent, outcome, replay))
                && (next.Some? ==> next.value == NextPayload(outcome, identity))
                && (next.None? ==> r == StopsWith(policy, sent, outcome, replay))
    {
      next, r := None, Err(AttemptsExhausted);
      var ok := TakeAttempt(identity);
      if !ok {
        return;
      }
      match outcome {
        case DeadlinePassed => r := Err(DeadlineExceeded);
        case Answer(status) => r := Ok(status);
        case Redirect(code, target) =>
          r := Ok(code);
          if replay {
            match target {
              case Malformed => r := Err(InvalidRedirect);
              case CrossOrigin => r := Err(UnsafeRedirect);
              case SameOrigin(moved) => next := Some(moved);
            }
          }
        case Broken(replayable, waitCut) =>
          if !replay || !replayable {
            return None, Err(TransportFailure);
          }
          if !state.Available(policy) {
            return None, Err(AttemptsExhausted);
          }
          var waited := Backoff(500 * Power2(Min(state.attempts, 3)));
          if waited.Err? {
            return None, Err(waited.error);
          }
          if waitCut {
            return None, Err(DeadlineExceeded);
          }
          next, r := Some(identity), Err(TransportFailure);
      }
    }

    /** The dispatch loop; `world` says what happens to each physical attempt. The
        ledger afterwards is exactly the sends made, each charged to its payload; all
        but the last were replayed; waits are charged for every replay after a broken
        send; the loop ends, exactly where it must and with the answer that fits. */
    method DispatchControlled(first: string, replay: bool, world: nat -> SendOutcome)
      returns (r: Result<nat, DispatchError>, ghost n: nat)
      requires Valid()
      modifies this`state
      ensures Valid() && state.attempts == old(state.attempts) + n
      ensures Ended(policy, old(state), first, replay, world, n, state, r)
    {
      ghost var track := TrackOf(policy, state, first, replay, world);
      ghost var start := state;
      r, n := DispatchLoop(first, replay, world, track);
      assert Ended(policy, start, first, replay, world, n, state, r);
    }

    /** One pass, told as progress along the track. */
    method DispatchPass(identity: string, replay: bool, world: nat -> SendOutcome, ghost track: Track, ghost start: State, ghost first: string, ghost n: nat)
      returns (next: Option<string>, r: Result<nat, DispatchError>, ghost m: nat)
      requires Valid() && Tracks(track, policy, start, first, replay, world) && state.attempts == start.attempts + n
      requires track.Going(n, state) && identity == track.Payload(n + 1)
      modifies this`state
      ensures Valid() && state.attempts == start.attempts + m && state.Limit(policy) == old(state.Limit(policy))
      ensures next.None? ==> track.Done(m, state, r)
      ensures next.Some? ==> m == n + 1 && track.Going(m, state) && next.value == track.Payload(m + 1)
    {
      ghost var before := state;
      next, r := DispatchOnce(identity, replay, At(world, state.attempts + 1));
      m := n;
      if before.Available(policy) {
        OneMoreSend(track, policy, start, first, replay, world, n, before, before.Send(identity), state);
        m := n + 1;
      } else {
        NoMoreSends(track, policy, start, first, replay, world, n, state);
      }
    }

    method DispatchLoop(first: string, replay: bool, world: nat -> SendOutcome, ghost track: Track)
      returns (r: Result<nat, DispatchError>, ghost n: nat)
      requires Valid() && Tracks(track, policy, state, first, replay, world)
      modifies this`state
      ensures Valid() && state.attempts == old(state.attempts) + n && track.Done(n, state, r)
    {
      var identity := first;
      ghost var start := state;
      n := 0;
      NoSendYet(track, policy, start, first, replay, world);
      while true
        invariant Valid() && state.attempts == start.attempts + n
        invariant track.Going(n, state) && identity == track.Payload(n + 1)
        decreases state.Limit(policy) - state.attempts
      {
        var next: Option<string>;
        next, r, n := DispatchPass(identity, replay, world, track, start, first, n);
        if next.None? {
          return;
        }
        identity := next.value;
      }
    }
  }

  function Power2(n: nat): nat { if n == 0 then 1 else 2 * Power2(n - 1) }
}
