/** The sliding-window circuit breaker over an integer clock. The error-rate threshold
is the rational `num / den`. */
module Breaker {
  import opened Common

  datatype Config = Config(window: nat, minSamples: nat, num: int, den: nat, openFor: nat, maxProbes: nat, probeTimeout: nat)

  datatype Status = Closed | Open | HalfOpen

  datatype Sample = Sample(at: nat, ok: bool)

  datatype Inner = Inner(status: Status, openedAt: Option<nat>, probes: nat, grantedAt: Option<nat>, window: seq<Sample>)

  const NEW: Inner := Inner(Closed, None, 0, None, [])

  predicate Elapsed(since: nat, now: nat, span: nat) { SatSub(now, since) >= span }

  /** A free probe slot, or one reclaimed because the latest grant has timed out. */
  function GrantProbe(c: Config, b: Inner, now: nat): (Inner, bool) {
    if b.probes < c.maxProbes then (b.(probes := b.probes + 1, grantedAt := Some(now)), true)
    else if b.grantedAt.None? || Elapsed(b.grantedAt.value, now, c.probeTimeout) then (b.(grantedAt := Some(now)), true)
    else (b, false)
  }

  function Check(c: Config, b: Inner, now: nat): (Inner, bool) {
    match b.status
    case Closed => (b, true)
    case HalfOpen => GrantProbe(c, b, now)
    case Open =>
      if b.openedAt.None? then GrantProbe(c, b, now)
      else if Elapsed(b.openedAt.value, now, c.openFor) then GrantProbe(c, b.(status := HalfOpen, probes := 0), now)
      else (b, false)
  }

  function Evict(c: Config, w: seq<Sample>, now: nat): seq<Sample> {
    if w != [] && w[0].at + c.window < now then Evict(c, w[1..], now) else w
  }

  function Failures(w: seq<Sample>): nat {
    if w == [] then 0 else Failures(w[..|w| - 1]) + if w[|w| - 1].ok then 0 else 1
  }

  /** Enough samples, and the failure ratio meets the threshold. */
  predicate Trips(c: Config, w: seq<Sample>) {
    |w| >= c.minSamples && Failures(w) * c.den >= c.num * |w|
  }

  /** The state change once the outcome is in the window. */
  function Transitioned(c: Config, b: Inner, ok: bool, now: nat): Inner {
    match b.status
    case HalfOpen => if ok then NEW else Inner(Open, Some(now), 0, None, b.window)
    case Closed => if Trips(c, b.window) then b.(status := Open, openedAt := Some(now)) else b
    case Open => b
  }

  function Record(c: Config, b: Inner, ok: bool, now: nat): Inner {
    Transitioned(c, b.(window := Evict(c, b.window, now) + [Sample(now, ok)]), ok, now)
  }

  // ---- the log behind the window -------------------------------------------

  /** A recorded outcome; `closing` marks a success that closed a half-open breaker. */
  datatype Logged = Logged(sample: Sample, closing: bool)

  function SinceClose(log: seq<Logged>): seq<Sample> {
    if log == [] || log[|log| - 1].closing then []
    else SinceClose(log[..|log| - 1]) + [log[|log| - 1].sample]
  }

  /** The samples at most one window old. */
  function Recent(c: Config, w: seq<Sample>, now: nat): seq<Sample> {
    if w == [] then []
    else
      var last := w[|w| - 1];
      Recent(c, w[..|w| - 1], now) + if last.at + c.window >= now then [last] else []
  }

  ghost predicate Ascending(w: seq<Sample>, now: nat) {
    && (forall i, j | 0 <= i < j < |w| :: w[i].at <= w[j].at)
    && (forall i | 0 <= i < |w| :: w[i].at <= now)
  }

  lemma {:induction false} RecentAll(c: Config, w: seq<Sample>, now: nat)
    requires forall i | 0 <= i < |w| :: w[i].at + c.window >= now
    ensures Recent(c, w, now) == w
  {
    if w != [] {
      var front, last := w[..|w| - 1], w[|w| - 1];
      RecentAll(c, front, now);
      assert w == front + [last];
    }
  }

  lemma {:induction false} RecentDropsHead(c: Config, w: seq<Sample>, now: nat)
    requires w != [] && w[0].at + c.window < now
    ensures Recent(c, w, now) == Recent(c, w[1..], now)
  {
    if |w| > 1 {
      RecentDropsHead(c, w[..|w| - 1], now);
      assert w[..|w| - 1][1..] == w[1..][..|w| - 2];
    }
  }

  /** In time order, dropping expired entries from the front keeps exactly the recent ones. */
  lemma {:induction false} EvictIsRecent(c: Config, w: seq<Sample>, now: nat)
    requires Ascending(w, now)
    ensures Evict(c, w, now) == Recent(c, w, now)
  {
    if w != [] && w[0].at + c.window < now {
      RecentDropsHead(c, w, now);
      EvictIsRecent(c, w[1..], now);
    } else {
      RecentAll(c, w, now);
    }
  }

  lemma {:induction false} RecentAscends(c: Config, w: seq<Sample>, earlier: nat, now: nat)
    requires Ascending(w, now)
    ensures Ascending(Recent(c, w, earlier), now)
    ensures forall x | x in Recent(c, w, earlier) :: x in w
  {
    if w != [] {
      var front := w[..|w| - 1];
      RecentAscends(c, front, earlier, now);
      forall x | x in Recent(c, front, earlier) ensures x.at <= w[|w| - 1].at {
        assert x in front;
      }
    }
  }

  /** What was forgotten at an earlier instant stays forgotten. */
  lemma {:induction false} RecentOfRecent(c: Config, w: seq<Sample>, earlier: nat, now: nat)
    requires earlier <= now
    ensures Recent(c, Recent(c, w, earlier), now) == Recent(c, w, now)
  {
    if w != [] {
      var front := w[..|w| - 1];
      RecentOfRecent(c, front, earlier, now);
      var last := w[|w| - 1];
      var kept := Recent(c, front, earlier);
      if last.at + c.window < earlier {
        assert Recent(c, w, earlier) == kept;
      } else {
        assert Recent(c, w, earlier) == kept + [last] && (kept + [last])[..|kept|] == kept;
        assert Recent(c, kept + [last], now) == Recent(c, kept, now) + if last.at + c.window >= now then [last] else [];
      }
    }
  }

  // ---- every trace of calls ------------------------------------------------

  datatype Call = CheckAt(now: nat) | RecordAt(now: nat, ok: bool)

  /** A breaker with its whole log, the instant of the last record and the clock. */
  datatype History = History(b: Inner, log: seq<Logged>, recorded: nat, now: nat)

  const BEGIN: History := History(NEW, [], 0, 0)

  function Do(c: Config, h: History, call: Call): History {
    match call
    case CheckAt(now) => h.(b := Check(c, h.b, now).0, now := now)
    case RecordAt(now, ok) =>
      History(Record(c, h.b, ok, now), h.log + [Logged(Sample(now, ok), h.b.status.HalfOpen? && ok)], now, now)
  }

  function Granted(c: Config, h: History, call: Call): nat {
    if call.CheckAt? && Check(c, h.b, call.now).1 then 1 else 0
  }

  /** The outcomes since the last half-open success that are within one window of `now`. */
  function Live(c: Config, log: seq<Logged>, now: nat): seq<Sample> {
    Recent(c, SinceClose(log), now)
  }

  ghost predicate Inv(c: Config, h: History) {
    && h.recorded <= h.now
    && Ascending(SinceClose(h.log), h.recorded)
    && h.b.window == Live(c, h.log, h.recorded)
    && (h.b.status.Open? <==> h.b.openedAt.Some? && !h.b.status.HalfOpen?)
    && (h.b.openedAt.Some? ==> h.b.openedAt.value <= h.now)
    && (!h.b.status.HalfOpen? ==> h.b.probes == 0 && h.b.grantedAt.None?)
    && (h.b.status.HalfOpen? ==> h.b.grantedAt.Some? && h.b.grantedAt.value <= h.now)
    && h.b.probes <= c.maxProbes
  }

  lemma RecentGrows(c: Config, w: seq<Sample>, sample: Sample)
    ensures Recent(c, w + [sample], sample.at) == Recent(c, w, sample.at) + [sample]
  {
    var grown := w + [sample];
    assert grown[|grown| - 1] == sample && grown[..|grown| - 1] == w;
  }

  lemma AscendingGrows(w: seq<Sample>, earlier: nat, sample: Sample)
    requires Ascending(w, earlier) && earlier <= sample.at
    ensures Ascending(w, sample.at) && Ascending(w + [sample], sample.at)
  {
  }

  /** Evicting and appending keeps the window equal to the recent part of the sub-log. */
  lemma WindowGrows(c: Config, window: seq<Sample>, since: seq<Sample>, recorded: nat, sample: Sample)
    requires Ascending(since, recorded) && recorded <= sample.at && window == Recent(c, since, recorded)
    ensures Evict(c, window, sample.at) + [sample] == Recent(c, since + [sample], sample.at)
    ensures Ascending(since + [sample], sample.at)
  {
    AscendingGrows(since, recorded, sample);
    RecentAscends(c, since, recorded, sample.at);
    EvictIsRecent(c, window, sample.at);
    RecentOfRecent(c, since, recorded, sample.at);
    RecentGrows(c, since, sample);
  }

  lemma SinceCloseGrows(log: seq<Logged>, e: Logged)
    ensures SinceClose(log + [e]) == if e.closing then [] else SinceClose(log) + [e.sample]
  {
    var grown := log + [e];
    assert grown[|grown| - 1] == e && grown[..|grown| - 1] == log;
  }

  ghost function FailedAt(w: seq<Sample>): set<nat> { set i: nat | i < |w| && !w[i].ok }

  /** `Failures` counts the samples that are no successes. */
  lemma {:induction false} FailuresCount(w: seq<Sample>)
    ensures Failures(w) == |FailedAt(w)|
  {
    if w != [] {
      var front, n := w[..|w| - 1], |w| - 1;
      FailuresCount(front);
      assert FailedAt(w) == FailedAt(front) + if w[n].ok then {} else {n};
    }
  }

  /** Enough outcomes, and the share of failures among them meets the threshold. */
  ghost predicate Failing(c: Config, w: seq<Sample>) {
    |w| >= c.minSamples && |FailedAt(w)| * c.den >= c.num * |w|
  }

  lemma FailingIff(c: Config, w: seq<Sample>)
    ensures Failing(c, w) <==> Trips(c, w)
  {
    FailuresCount(w);
  }

  /** What a record makes of the breaker; `trips` decides for a closed one. */
  predicate Recorded(b: Inner, sample: Sample, trips: bool, after: Inner) {
    match b.status
    case Closed => after == if trips then Inner(Open, Some(sample.at), 0, None, after.window) else Inner(Closed, None, 0, None, after.window)
    case HalfOpen => after == if sample.ok then Inner(Closed, None, 0, None, []) else Inner(Open, Some(sample.at), 0, None, after.window)
    case Open => after == b.(window := after.window)
  }

  /** The history after a record whose window is `window` before the transition. */
  lemma RecordMoves(c: Config, h: History, call: Call, window: seq<Sample>)
    requires Inv(c, h) && call.RecordAt? && h.now <= call.now
    requires window == Evict(c, h.b.window, call.now) + [Sample(call.now, call.ok)]
    ensures var t := Do(c, h, call);
            && t.log == h.log + [Logged(Sample(call.now, call.ok), h.b.status == HalfOpen && call.ok)]
            && t.recorded == t.now == call.now
            && t.b.window == (if h.b.status == HalfOpen && call.ok then [] else window)
            && Recorded(h.b, Sample(call.now, call.ok), Trips(c, t.b.window), t.b)
  {
  }

  lemma RecordWindow(c: Config, h: History, call: Call)
    requires Inv(c, h) && call.RecordAt? && h.now <= call.now
    ensures var log := h.log + [Logged(Sample(call.now, call.ok), h.b.status == HalfOpen && call.ok)];
            && Ascending(SinceClose(log), call.now)
            && Live(c, log, call.now)
               == if h.b.status == HalfOpen && call.ok then [] else Evict(c, h.b.window, call.now) + [Sample(call.now, call.ok)]
  {
    var sample := Sample(call.now, call.ok);
    WindowGrows(c, h.b.window, SinceClose(h.log), h.recorded, sample);
    SinceCloseGrows(h.log, Logged(sample, h.b.status == HalfOpen && call.ok));
  }

  lemma RecordedKeeps(c: Config, h: History, t: History, sample: Sample, trips: bool)
    requires Inv(c, h) && h.now <= t.now && t.recorded == t.now == sample.at && Recorded(h.b, sample, trips, t.b)
    requires Ascending(SinceClose(t.log), t.now) && t.b.window == Live(c, t.log, t.now)
    ensures Inv(c, t)
  {
  }

  lemma RecordKeepsInv(c: Config, h: History, call: Call)
    requires Inv(c, h) && call.RecordAt? && h.now <= call.now
    ensures Inv(c, Do(c, h, call))
    ensures Do(c, h, call).b.window == Live(c, Do(c, h, call).log, call.now)
  {
    RecordMoves(c, h, call, Evict(c, h.b.window, call.now) + [Sample(call.now, call.ok)]);
    RecordWindow(c, h, call);
    var t := Do(c, h, call);
    RecordedKeeps(c, h, t, Sample(call.now, call.ok), Trips(c, t.b.window));
  }

  /** After every record the deque is the live sub-log with the new outcome last. A closed
      breaker opens exactly when enough of that sub-log failed; a half-open one closes
      empty on a success and opens on a failure; an open one stays as it is. */
  lemma RecordRefines(c: Config, h: History, call: Call)
    requires Inv(c, h) && call.RecordAt? && h.now <= call.now
    ensures Inv(c, Do(c, h, call)) && Do(c, h, call).b.window == Live(c, Do(c, h, call).log, call.now)
    ensures var t := Do(c, h, call);
            && t.log == h.log + [Logged(Sample(call.now, call.ok), h.b.status == HalfOpen && call.ok)]
            && (!(h.b.status == HalfOpen && call.ok) ==> t.b.window != [] && t.b.window[|t.b.window| - 1] == Sample(call.now, call.ok))
            && Recorded(h.b, Sample(call.now, call.ok), Failing(c, t.b.window), t.b)
  {
    RecordKeepsInv(c, h, call);
    RecordMoves(c, h, call, Evict(c, h.b.window, call.now) + [Sample(call.now, call.ok)]);
    FailingIff(c, Do(c, h, call).b.window);
  }

  /** A record opens a closed breaker or leaves it closed, as the live sub-log says. */
  lemma ClosedAfter(c: Config, h: History, call: Call)
    requires Inv(c, h) && call.RecordAt? && h.now <= call.now && h.b.status == Closed
    ensures Do(c, h, call).b.status == if Failing(c, Live(c, Do(c, h, call).log, call.now)) then Open else Closed
  {
    RecordRefines(c, h, call);
  }

  /** A closed breaker that has seen no failure of late stays closed. */
  lemma SuccessesKeepClosed(c: Config, h: History, call: Call)
    requires Inv(c, h) && call.RecordAt? && h.now <= call.now && h.b.status == Closed && c.num > 0
    requires forall i | 0 <= i < |Live(c, Do(c, h, call).log, call.now)| :: Live(c, Do(c, h, call).log, call.now)[i].ok
    ensures Do(c, h, call).b.status == Closed
  {
    RecordKeepsInv(c, h, call);
    RecordMoves(c, h, call, Evict(c, h.b.window, call.now) + [Sample(call.now, call.ok)]);
    NoFailureNoTrip(c, Do(c, h, call).b.window);
  }

  lemma NoFailureNoTrip(c: Config, w: seq<Sample>)
    requires w != [] && c.num > 0 && forall i | 0 <= i < |w| :: w[i].ok
    ensures !Trips(c, w)
  {
    FailuresCount(w);
    assert FailedAt(w) == {};
    Positive(c.num, |w|);
  }

  lemma Positive(a: int, b: nat)
    requires a > 0 && b > 0
    ensures a * b > 0
  {
  }

  function Samples(log: seq<Logged>): (w: seq<Sample>)
    ensures |w| == |log| && forall i | 0 <= i < |w| :: w[i] == log[i].sample
  {
    seq(|log|, i requires 0 <= i < |log| => log[i].sample)
  }

  lemma SamplesGrow(front: seq<Logged>, e: Logged)
    ensures Samples(front + [e]) == Samples(front) + [e.sample]
  {
  }

  lemma DropGrows<T>(front: seq<T>, x: T, k: nat)
    requires k <= |front|
    ensures (front + [x])[k..] == front[k..] + [x]
  {
  }

  lemma DropDrop<T>(w: seq<T>, j: nat, k: nat)
    requires j + k <= |w|
    ensures w[j..][k..] == w[j + k..]
  {
  }

  /** The outcome was recorded after the last success that closed the breaker, at most one
      window before `now`. */
  ghost predicate Counts(c: Config, log: seq<Logged>, i: nat, now: nat)
    requires i < |log|
  {
    log[i].sample.at + c.window >= now && forall j | i <= j < |log| :: !log[j].closing
  }

  lemma {:induction false} SinceCloseIs(log: seq<Logged>) returns (k: nat)
    ensures k <= |log| && SinceClose(log) == Samples(log)[k..]
    ensures k == 0 || log[k - 1].closing
    ensures forall j | k <= j < |log| :: !log[j].closing
  {
    k := |log|;
    if log != [] && !log[|log| - 1].closing {
      var front, e := log[..|log| - 1], log[|log| - 1];
      assert log == front + [e];
      k := SinceCloseIs(front);
      SamplesGrow(front, e);
      DropGrows(Samples(front), e.sample, k);
    }
  }

  lemma {:induction false} RecentIs(c: Config, w: seq<Sample>, now: nat) returns (k: nat)
    requires Ascending(w, now)
    ensures k <= |w| && Recent(c, w, now) == w[k..]
    ensures forall i | 0 <= i < |w| :: k <= i <==> w[i].at + c.window >= now
  {
    k := |w|;
    if w != [] {
      var front, last := w[..|w| - 1], w[|w| - 1];
      assert w == front + [last];
      if last.at + c.window >= now {
        k := RecentIs(c, front, now);
        DropGrows(front, last, k);
      } else {
        NoneRecent(c, w, now);
      }
    }
  }

  lemma {:induction false} NoneRecent(c: Config, w: seq<Sample>, now: nat)
    requires Ascending(w, now) && w != [] && w[|w| - 1].at + c.window < now
    ensures Recent(c, w, now) == [] && forall i | 0 <= i < |w| :: w[i].at + c.window < now
  {
    if |w| > 1 {
      assert w[|w| - 2].at <= w[|w| - 1].at;
      NoneRecent(c, w[..|w| - 1], now);
    }
  }

  /** The live sub-log is exactly the outcomes that count, in order. */
  lemma LiveIs(c: Config, log: seq<Logged>, now: nat) returns (k: nat)
    requires Ascending(SinceClose(log), now)
    ensures k <= |log| && Live(c, log, now) == Samples(log)[k..]
    ensures forall i: nat | i < |log| :: k <= i <==> Counts(c, log, i, now)
  {
    var from := SinceCloseIs(log);
    var later := RecentIs(c, SinceClose(log), now);
    k := from + later;
    DropDrop(Samples(log), from, later);
    forall i: nat | i < |log| ensures k <= i <==> Counts(c, log, i, now) {
      if i < from {
        assert log[from - 1].closing;
      } else {
        assert SinceClose(log)[i - from] == log[i].sample;
      }
    }
  }

  lemma CheckKeepsInv(c: Config, h: History, call: Call)
    requires Inv(c, h) && call.CheckAt? && h.now <= call.now
    ensures Inv(c, Do(c, h, call))
  {
  }

  ghost predicate Forward(from: nat, calls: seq<Call>) {
    && (forall i | 0 <= i < |calls| :: from <= calls[i].now)
    && (forall i, j | 0 <= i < j < |calls| :: calls[i].now <= calls[j].now)
  }

  function After(c: Config, h: History, calls: seq<Call>): History
    decreases |calls|
  {
    if calls == [] then h else After(c, Do(c, h, calls[0]), calls[1..])
  }

  function Grants(c: Config, h: History, calls: seq<Call>): nat
    decreases |calls|
  {
    if calls == [] then 0 else Granted(c, h, calls[0]) + Grants(c, Do(c, h, calls[0]), calls[1..])
  }

  lemma {:induction false} InvAlways(c: Config, h: History, calls: seq<Call>)
    requires Inv(c, h) && Forward(h.now, calls)
    ensures Inv(c, After(c, h, calls))
    decreases |calls|
  {
    if calls != [] {
      if calls[0].CheckAt? {
        CheckKeepsInv(c, h, calls[0]);
      } else {
        RecordRefines(c, h, calls[0]);
      }
      InvAlways(c, Do(c, h, calls[0]), calls[1..]);
    }
  }

  /** An open breaker grants nothing and stays as it is until its cool-down has
      passed, whatever late outcomes arrive. */
  lemma {:induction false} NoGrantDuringCoolDown(c: Config, h: History, calls: seq<Call>)
    requires h.b.status.Open? && h.b.openedAt.Some?
    requires forall i | 0 <= i < |calls| :: h.b.openedAt.value <= calls[i].now < h.b.openedAt.value + c.openFor
    ensures Grants(c, h, calls) == 0
    ensures var t := After(c, h, calls); t.b.status.Open? && t.b.openedAt == h.b.openedAt
    decreases |calls|
  {
    if calls != [] {
      assert h.b.openedAt.value <= calls[0].now < h.b.openedAt.value + c.openFor;
      NoGrantDuringCoolDown(c, Do(c, h, calls[0]), calls[1..]);
    }
  }

  /** The first instant at which a check is granted. */
  function Reopens(c: Config, b: Inner): nat {
    match b.status
    case Closed => 0
    case Open => if b.openedAt.Some? then b.openedAt.value + c.openFor else 0
    case HalfOpen =>
      if b.probes < c.maxProbes || b.grantedAt.None? then 0 else b.grantedAt.value + c.probeTimeout
  }

  /** No reachable state rejects for ever: a check is granted exactly from a known
      instant on, at most one cool-down or probe timeout away. */
  lemma GrantedIff(c: Config, calls: seq<Call>, now: nat)
    requires Forward(0, calls) && now >= After(c, BEGIN, calls).now
    ensures var b := After(c, BEGIN, calls).b;
            && (Check(c, b, now).1 <==> now >= Reopens(c, b))
            && Reopens(c, b) <= After(c, BEGIN, calls).now + Max(c.openFor, c.probeTimeout)
  {
    InvAlways(c, BEGIN, calls);
    GrantedFrom(c, After(c, BEGIN, calls), now);
  }

  lemma GrantedFrom(c: Config, h: History, now: nat)
    requires Inv(c, h) && now >= h.now
    ensures Check(c, h.b, now).1 <==> now >= Reopens(c, h.b)
    ensures Reopens(c, h.b) <= h.now + Max(c.openFor, c.probeTimeout)
  {
  }

  // ---- half-open episodes --------------------------------------------------

  /** Every call of the trace leaves the breaker half-open. */
  predicate StaysHalfOpen(c: Config, h: History, calls: seq<Call>)
    decreases |calls|
  {
    h.b.status.HalfOpen? && (calls == [] || StaysHalfOpen(c, Do(c, h, calls[0]), calls[1..]))
  }

  /** `granted` checks so far in the episode that began at `begun`: the slots, then one
      for each probe timeout. */
  ghost predicate EpisodeOk(c: Config, b: Inner, begun: nat, granted: nat, reclaimed: nat) {
    && b.grantedAt.Some? && begun + reclaimed * c.probeTimeout <= b.grantedAt.value
    && granted <= Max(1, b.probes) + reclaimed
    && b.probes <= c.maxProbes
    && (b.probes < c.maxProbes ==> reclaimed == 0 && granted == b.probes)
  }

  lemma {:induction false} EpisodeGrants(c: Config, h: History, calls: seq<Call>, begun: nat, granted: nat, reclaimed: nat, end: nat)
    requires StaysHalfOpen(c, h, calls) && EpisodeOk(c, h.b, begun, granted, reclaimed) && h.b.grantedAt.value <= end
    requires Forward(h.b.grantedAt.value, calls)
    requires forall i | 0 <= i < |calls| :: calls[i].now <= end
    ensures exists n: nat :: begun + n * c.probeTimeout <= end
                             && granted + Grants(c, h, calls) <= Max(1, c.maxProbes) + n
    decreases |calls|
  {
    if calls == [] {
      assert begun + reclaimed * c.probeTimeout <= end;
    } else {
      var t := Do(c, h, calls[0]);
      assert calls[0].CheckAt?;
      var n := granted + Granted(c, h, calls[0]);
      var r := if Granted(c, h, calls[0]) == 1 && h.b.probes >= c.maxProbes then reclaimed + 1 else reclaimed;
      assert (reclaimed + 1) * c.probeTimeout == reclaimed * c.probeTimeout + c.probeTimeout;
      EpisodeGrants(c, t, calls[1..], begun, n, r, end);
    }
  }

  lemma Below(k: int, d: nat)
    requires k * d < d
    ensures k <= 0
  {
  }

  lemma QuotientBound(n: nat, d: nat, span: nat)
    requires d > 0 && n * d <= span
    ensures n <= span / d
  {
    var q := span / d;
    assert (n - q) * d == n * d - q * d;
    Below(n - q, d);
  }

  /** A half-open episode of length D grants at most its probe slots plus one check
      for each whole probe timeout in D. */
  lemma {:induction false} EpisodeBound(c: Config, before: History, begun: nat, calls: seq<Call>, end: nat)
    requires c.probeTimeout > 0 && begun <= end
    requires before.b.status.Open? && Inv(c, before)
    requires var h := Do(c, before, CheckAt(begun)); StaysHalfOpen(c, h, calls)
    requires Forward(begun, calls)
    requires forall i | 0 <= i < |calls| :: calls[i].now <= end
    ensures Granted(c, before, CheckAt(begun)) + Grants(c, Do(c, before, CheckAt(begun)), calls)
            <= Max(1, c.maxProbes) + (end - begun) / c.probeTimeout
  {
    var h := Do(c, before, CheckAt(begun));
    assert EpisodeOk(c, h.b, begun, 1, 0);
    EpisodeGrants(c, h, calls, begun, 1, 0, end);
    var n: nat :| begun + n * c.probeTimeout <= end && 1 + Grants(c, h, calls) <= Max(1, c.maxProbes) + n;
    QuotientBound(n, c.probeTimeout, end - begun);
  }

  /** With no probe slots at all an episode still begins with a grant, because a missing
      grant instant counts as timed out. */
  lemma ZeroProbesStillGrant(c: Config, h: History, now: nat)
    requires Inv(c, h) && h.b.status.Open? && c.maxProbes == 0 && now >= h.b.openedAt.value + c.openFor
    ensures Granted(c, h, CheckAt(now)) == 1
    ensures var t := Do(c, h, CheckAt(now)); t.b.status.HalfOpen? && t.b.probes == 0 && t.b.grantedAt == Some(now)
  {
  }

  /** A half-open episode of a reachable breaker, from the check that begins it to `end`. */
  ghost predicate Episode(c: Config, past: seq<Call>, begun: nat, calls: seq<Call>, end: nat) {
    && Forward(0, past)
    && var before := After(c, BEGIN, past);
       && before.b.status.Open? && before.now <= begun <= end
       && StaysHalfOpen(c, Do(c, before, CheckAt(begun)), calls)
       && Forward(begun, calls) && forall i | 0 <= i < |calls| :: calls[i].now <= end
  }

  ghost function EpisodeTotal(c: Config, past: seq<Call>, begun: nat, calls: seq<Call>): nat {
    var before := After(c, BEGIN, past);
    Granted(c, before, CheckAt(begun)) + Grants(c, Do(c, before, CheckAt(begun)), calls)
  }

  /** Every window of failures trips a breaker whose threshold is at most one. */
  lemma {:induction false} AllFail(w: seq<Sample>)
    requires forall i | 0 <= i < |w| :: !w[i].ok
    ensures Failures(w) == |w|
  {
    if w != [] {
      AllFail(w[..|w| - 1]);
    }
  }

  lemma Scaled(f: nat, num: int, den: nat)
    requires num <= den
    ensures f * den >= num * f
  {
    assert f * (den - num) >= 0;
    assert f * (den - num) == f * den - num * f;
  }

  /** A closed breaker that only fails opens, at the instant of a failure. */
  lemma {:induction false} FailUntilOpen(c: Config, h: History) returns (calls: seq<Call>)
    requires c.num <= c.den && h.b.status.Closed? && h.now == 0
    requires forall i | 0 <= i < |h.b.window| :: h.b.window[i] == Sample(0, false)
    ensures Forward(0, calls)
    ensures var t := After(c, h, calls); t.b.status.Open? && t.b.openedAt == Some(0) && t.now == 0
    decreases SatSub(c.minSamples, |h.b.window|)
  {
    var fail := RecordAt(0, false);
    var t := Do(c, h, fail);
    var w := h.b.window + [Sample(0, false)];
    assert Evict(c, h.b.window, 0) == h.b.window;
    AllFail(w);
    Scaled(|w|, c.num, c.den);
    if Trips(c, w) {
      calls := [fail];
      assert calls[0] == fail && calls[1..] == [];
      assert After(c, h, calls) == After(c, t, []) == t;
    } else {
      var rest := FailUntilOpen(c, t);
      calls := [fail] + rest;
      assert calls[0] == fail && calls[1..] == rest;
    }
  }

  /** The configured maximum bounds the grants of every episode if and only if it is at
      least one. The breaker is one that failures alone can trip. */
  lemma {:induction false} EpisodeBoundIff(c: Config)
    requires c.probeTimeout > 0 && c.num <= c.den
    ensures (forall past, begun: nat, calls, end: nat | Episode(c, past, begun, calls, end) ::
               EpisodeTotal(c, past, begun, calls) <= c.maxProbes + (end - begun) / c.probeTimeout)
            <==> c.maxProbes >= 1
  {
    if c.maxProbes >= 1 {
      forall past, begun: nat, calls, end: nat | Episode(c, past, begun, calls, end)
        ensures EpisodeTotal(c, past, begun, calls) <= c.maxProbes + (end - begun) / c.probeTimeout
      {
        InvAlways(c, BEGIN, past);
        EpisodeBound(c, After(c, BEGIN, past), begun, calls, end);
      }
    } else {
      var past := FailUntilOpen(c, BEGIN);
      InvAlways(c, BEGIN, past);
      ZeroProbesStillGrant(c, After(c, BEGIN, past), c.openFor);
      assert Episode(c, past, c.openFor, [], c.openFor);
      assert EpisodeTotal(c, past, c.openFor, []) == 1;
    }
  }

  /** While every slot is taken and no outcome comes back, nothing is granted before the
      latest grant has timed out. */
  lemma {:induction false} NoGrantWhileProbing(c: Config, h: History, calls: seq<Call>)
    requires h.b.status.HalfOpen? && h.b.probes >= c.maxProbes && h.b.grantedAt.Some?
    requires forall i | 0 <= i < |calls| ::
               calls[i].CheckAt? && h.b.grantedAt.value <= calls[i].now < h.b.grantedAt.value + c.probeTimeout
    ensures Grants(c, h, calls) == 0 && After(c, h, calls).b == h.b
    decreases |calls|
  {
    if calls != [] {
      assert calls[0].CheckAt? && h.b.grantedAt.value <= calls[0].now < h.b.grantedAt.value + c.probeTimeout;
      NoGrantWhileProbing(c, Do(c, h, calls[0]), calls[1..]);
    }
  }

  // ---- the breaker object --------------------------------------------------

  class CircuitBreaker {
    const config: Config
    var status: Status
    var openedAt: Option<nat>
    var probes: nat
    var grantedAt: Option<nat>
    var window: seq<Sample>
    /** Everything ever recorded, and the latest instants. */
    ghost var log: seq<Logged>
    ghost var recorded: nat
    ghost var now: nat

    function State(): Inner
      reads this
    {
      Inner(status, openedAt, probes, grantedAt, window)
    }

    ghost function Past(): History
      reads this
    {
      History(State(), log, recorded, now)
    }

    ghost predicate Valid()
      reads this
    {
      Inv(config, Past())
    }

    constructor (config: Config)
      ensures Valid() && this.config == config && Past() == BEGIN
    {
      this.config := config;
      status, openedAt, probes, grantedAt, window := Closed, None, 0, None, [];
      log, recorded, now := [], 0, 0;
    }

    method TakeProbe(now: nat) returns (granted: bool)
      modifies this`probes, this`grantedAt
      ensures (State(), granted) == old(GrantProbe(config, State(), now))
    {
      if probes < config.maxProbes {
        probes := probes + 1;
        grantedAt := Some(now);
        granted := true;
      } else if grantedAt.None? || Elapsed(grantedAt.value, now, config.probeTimeout) {
        grantedAt := Some(now);
        granted := true;
      } else {
        granted := false;
      }
    }

    method CheckRequest(now: nat) returns (granted: bool)
      requires Valid() && this.now <= now
      modifies this
      ensures Valid() && Past() == old(Do(config, Past(), CheckAt(now)))
      ensures granted <==> now >= old(Reopens(config, State()))
    {
      CheckKeepsInv(config, Past(), CheckAt(now));
      GrantedFrom(config, Past(), now);
      this.now := now;
      match status {
        case Closed => granted := true;
        case Open =>
          if openedAt.Some? {
            if Elapsed(openedAt.value, now, config.openFor) {
              status := HalfOpen;
              probes := 0;
            } else {
              return false;
            }
          }
          granted := TakeProbe(now);
        case HalfOpen => granted := TakeProbe(now);
      }
    }

    method DropExpired(now: nat)
      modifies this`window
      ensures window == Evict(config, old(window), now)
    {
      if now >= config.window {
        var cutoff := now - config.window;
        while window != [] && window[0].at < cutoff
          invariant Evict(config, window, now) == Evict(config, old(window), now)
          decreases |window|
        {
          window := window[1..];
        }
      }
    }

    method Transition(ok: bool, now: nat)
      modifies this`status, this`openedAt, this`probes, this`grantedAt, this`window
      requires window != [] && window[|window| - 1] == Sample(now, ok)
      ensures State() == old(Transitioned(config, State(), ok, now))
    {
      match status {
        case HalfOpen =>
          if ok {
            status, openedAt, probes, grantedAt, window := Closed, None, 0, None, [];
          } else {
            status, openedAt, probes, grantedAt := Open, Some(now), 0, None;
          }
        case Closed =>
          if |window| >= config.minSamples {
            var failures := CountFailures();
            if failures * config.den >= config.num * |window| {
              status, openedAt := Open, Some(now);
            }
          }
        case Open =>
      }
    }

    method RecordOutcome(ok: bool, now: nat)
      requires Valid() && this.now <= now
      modifies this
      ensures Valid() && Past() == old(Do(config, Past(), RecordAt(now, ok)))
      ensures window == Live(config, log, now)
      ensures old(status).Closed? ==> status == if Failing(config, Live(config, log, now)) then Open else Closed
    {
      RecordKeepsInv(config, Past(), RecordAt(now, ok));
      if status == Closed {
        ClosedAfter(config, Past(), RecordAt(now, ok));
      }
      log := log + [Logged(Sample(now, ok), status.HalfOpen? && ok)];
      recorded, this.now := now, now;
      DropExpired(now);
      window := window + [Sample(now, ok)];
      Transition(ok, now);
      assert Past() == old(Do(config, Past(), RecordAt(now, ok)));
    }

    method CountFailures() returns (n: nat)
      ensures n == Failures(window)
    {
      n := 0;
      for i := 0 to |window|
        invariant n == Failures(window[..i])
      {
        assert window[..i + 1][..i] == window[..i];
        n := n + if window[i].ok then 0 else 1;
      }
      assert window[..|window|] == window;
    }
  }
}
