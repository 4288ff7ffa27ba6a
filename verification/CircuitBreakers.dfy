/** The circuit breaker of one terminal: a timed three-state machine. */
module CircuitBreakers {
  import opened Basics

  datatype Mode = Closed | Open | HalfOpen

  datatype Policy = Policy(failureThreshold: int, recoveryTimeout: int, halfOpenMaxCalls: int)
  {
    ghost predicate Sound() {
      failureThreshold >= 1 && recoveryTimeout > 0 && halfOpenMaxCalls >= 0
    }
  }

  const DEFAULT_POLICY := Policy(5, 30 * SECOND, 3)

  datatype Breaker = Breaker(mode: Mode, failureCount: int, lastFailureTime: Option<int>, halfOpenCalls: int)

  const FRESH := Breaker(Closed, 0, None, 0)

  /** What can happen to a breaker: a request asks, or an outcome arrives, possibly late. */
  datatype Op = Ask(now: int) | Success | Failure(now: int)

  /** The timestamp is tested for truth, so a failure recorded at instant 0 never times out. */
  predicate Recovered(p: Policy, b: Breaker, now: int) {
    && b.lastFailureTime.Some?
    && b.lastFailureTime.value != 0
    && now - b.lastFailureTime.value >= p.recoveryTimeout
  }

  predicate Admits(p: Policy, b: Breaker, now: int) {
    match b.mode
    case Closed => true
    case Open => Recovered(p, b, now)
    case HalfOpen => b.halfOpenCalls < p.halfOpenMaxCalls
  }

  function Step(p: Policy, b: Breaker, op: Op): Breaker {
    match op
    case Ask(now) => (
      match b.mode
      case Closed => b
      case Open => if Recovered(p, b, now) then b.(mode := HalfOpen, halfOpenCalls := 0) else b
      case HalfOpen => if Admits(p, b, now) then b.(halfOpenCalls := b.halfOpenCalls + 1) else b)
    case Success => (
      match b.mode
      case Closed => b.(failureCount := 0)
      case Open => b
      case HalfOpen => b.(mode := Closed, failureCount := 0, halfOpenCalls := 0))
    case Failure(now) =>
      var c := b.(failureCount := b.failureCount + 1, lastFailureTime := Some(now));
      match b.mode
      case Closed => if c.failureCount >= p.failureThreshold then c.(mode := Open) else c
      case Open => c
      case HalfOpen => c.(mode := Open, halfOpenCalls := 0)
  }

  /** The mutable breaker; each method is one `async with self._lock` block and never suspends inside it. */
  class CircuitBreaker {
    const policy: Policy
    var mode: Mode
    var failureCount: int
    var lastFailureTime: Option<int>
    var halfOpenCalls: int

    ghost function View(): Breaker
      reads this
    {
      Breaker(mode, failureCount, lastFailureTime, halfOpenCalls)
    }

    constructor (policy: Policy)
      ensures this.policy == policy && View() == FRESH
    {
      this.policy := policy;
      mode, failureCount, lastFailureTime, halfOpenCalls := Closed, 0, None, 0;
    }

    method CanExecute(now: int) returns (admitted: bool)
      modifies this
      ensures admitted == Admits(policy, old(View()), now)
      ensures View() == Step(policy, old(View()), Ask(now))
    {
      if mode == Closed {
        return true;
      }
      if mode == Open {
        if lastFailureTime.Some? && lastFailureTime.value != 0
           && now - lastFailureTime.value >= policy.recoveryTimeout
        {
          mode := HalfOpen;
          halfOpenCalls := 0;
          return true;
        }
        return false;
      }
      if halfOpenCalls < policy.halfOpenMaxCalls {
        halfOpenCalls := halfOpenCalls + 1;
        return true;
      }
      return false;
    }

    method RecordSuccess()
      modifies this
      ensures View() == Step(policy, old(View()), Success)
    {
      if mode == HalfOpen {
        mode := Closed;
        failureCount := 0;
        halfOpenCalls := 0;
      } else if mode == Closed {
        failureCount := 0;
      }
    }

    method RecordFailure(now: int)
      modifies this
      ensures View() == Step(policy, old(View()), Failure(now))
    {
      failureCount := failureCount + 1;
      lastFailureTime := Some(now);
      if mode == HalfOpen {
        mode := Open;
        halfOpenCalls := 0;
      } else if mode == Closed {
        if failureCount >= policy.failureThreshold {
          mode := Open;
        }
      }
    }
  }

  // ---------- Runs ----------

  function Run(p: Policy, b: Breaker, ops: seq<Op>): Breaker
    decreases |ops|
  {
    if ops == [] then b else Run(p, Step(p, b, ops[0]), ops[1..])
  }

  /** How many requests of `ops` are admitted. */
  function Admissions(p: Policy, b: Breaker, ops: seq<Op>): nat
    decreases |ops|
  {
    if ops == [] then 0
    else (if ops[0].Ask? && Admits(p, b, ops[0].now) then 1 else 0)
         + Admissions(p, Step(p, b, ops[0]), ops[1..])
  }

  lemma {:induction false} RunAppend(p: Policy, b: Breaker, ops: seq<Op>, more: seq<Op>)
    ensures Run(p, b, ops + more) == Run(p, Run(p, b, ops), more)
    decreases |ops|
  {
    if ops == [] {
      assert ops + more == more;
    } else {
      assert (ops + more)[0] == ops[0] && (ops + more)[1..] == ops[1..] + more;
      RunAppend(p, Step(p, b, ops[0]), ops[1..], more);
    }
  }

  /** A run grows by one operation at its end. */
  lemma RunSnoc(p: Policy, ops: seq<Op>)
    requires ops != []
    ensures Run(p, FRESH, ops) == Step(p, Run(p, FRESH, ops[..|ops| - 1]), ops[|ops| - 1])
  {
    var last := [ops[|ops| - 1]];
    assert ops == ops[..|ops| - 1] + last;
    RunAppend(p, FRESH, ops[..|ops| - 1], last);
    assert last[1..] == [];
    assert Run(p, Run(p, FRESH, ops[..|ops| - 1]), last) == Step(p, Run(p, FRESH, ops[..|ops| - 1]), last[0]);
  }

  // ---------- The state is determined by the history ----------

  function CountFailures(ops: seq<Op>): nat {
    if ops == [] then 0
    else CountFailures(ops[..|ops| - 1]) + if ops[|ops| - 1].Failure? then 1 else 0
  }

  /** Operation `i` is a success recorded while the breaker was not OPEN. */
  predicate EffectiveSuccess(p: Policy, ops: seq<Op>, i: nat)
    requires i < |ops|
  {
    ops[i].Success? && !Run(p, FRESH, ops[..i]).mode.Open?
  }

  /** Position `k` is the start of the current failure streak. */
  ghost predicate StreakStart(p: Policy, ops: seq<Op>, k: nat)
    requires k <= |ops|
  {
    && (k == 0 || EffectiveSuccess(p, ops, k - 1))
    && forall i :: k <= i < |ops| ==> !EffectiveSuccess(p, ops, i)
  }

  /** The failure counter is exactly the number of failures since the last success that counted. */
  lemma {:induction false} FailureCountIsStreak(p: Policy, ops: seq<Op>, k: nat)
    requires k <= |ops| && StreakStart(p, ops, k)
    ensures Run(p, FRESH, ops).failureCount == CountFailures(ops[k..])
  {
    if ops == [] {
    } else {
      var n := |ops| - 1;
      var before := ops[..n];
      RunSnoc(p, ops);
      forall i | 0 <= i < n ensures before[..i] == ops[..i] {}
      if k == |ops| {
        assert ops[..n] == before;
        assert ops[k..] == [];
      } else {
        assert !EffectiveSuccess(p, ops, n);
        forall i | k <= i < n ensures !EffectiveSuccess(p, before, i) {
          assert !EffectiveSuccess(p, ops, i);
        }
        if k > 0 {
          assert EffectiveSuccess(p, before, k - 1);
        }
        FailureCountIsStreak(p, before, k);
        assert ops[k..][..|ops[k..]| - 1] == before[k..];
      }
    }
  }

  /** CLOSED exactly while the streak is below the threshold. */
  lemma {:induction false} ClosedIffBelowThreshold(p: Policy, ops: seq<Op>)
    requires p.Sound()
    ensures Run(p, FRESH, ops).mode.Closed? <==> Run(p, FRESH, ops).failureCount < p.failureThreshold
  {
    if ops == [] {
    } else {
      RunSnoc(p, ops);
      ClosedIffBelowThreshold(p, ops[..|ops| - 1]);
    }
  }

  /** A streak below the threshold admits every request; so only a full streak of failures, without a
      counted success in between, can make a breaker refuse. */
  lemma ShortStreakAdmits(p: Policy, ops: seq<Op>, k: nat, now: int)
    requires p.Sound() && k <= |ops| && StreakStart(p, ops, k)
    requires CountFailures(ops[k..]) < p.failureThreshold
    ensures Admits(p, Run(p, FRESH, ops), now)
  {
    FailureCountIsStreak(p, ops, k);
    ClosedIffBelowThreshold(p, ops);
  }

  /** Every clock reading is positive and no reading is earlier than one before it. */
  ghost predicate Timed(ops: seq<Op>) {
    && (forall i :: 0 <= i < |ops| && !ops[i].Success? ==> ops[i].now > 0)
    && (forall i, j :: 0 <= i < j < |ops| && !ops[i].Success? && !ops[j].Success? ==> ops[i].now <= ops[j].now)
  }

  /** `t` is the time of the latest failure in `ops`, whichever state it arrived in. */
  ghost predicate IsLatestFailure(ops: seq<Op>, t: int) {
    exists i :: 0 <= i < |ops| && ops[i] == Failure(t) && forall j :: i < j < |ops| ==> !ops[j].Failure?
  }

  lemma {:induction false} LastFailureTimeIsLatest(p: Policy, ops: seq<Op>)
    ensures var last := Run(p, FRESH, ops).lastFailureTime;
            && (last.None? <==> forall i :: 0 <= i < |ops| ==> !ops[i].Failure?)
            && (last.Some? ==> IsLatestFailure(ops, last.value))
  {
    if ops == [] {
    } else {
      var n := |ops| - 1;
      var before := ops[..n];
      LastFailureTimeIsLatest(p, before);
      RunSnoc(p, ops);
      if ops[n].Failure? {
        assert ops[n] == Failure(ops[n].now);
      } else if Run(p, FRESH, before).lastFailureTime.Some? {
        var t := Run(p, FRESH, before).lastFailureTime.value;
        var i :| 0 <= i < |before| && before[i] == Failure(t) && forall j :: i < j < |before| ==> !before[j].Failure?;
        assert ops[i] == Failure(t);
        assert forall j :: i < j < |ops| ==> !ops[j].Failure?;
      } else {
        assert forall i :: 0 <= i < n ==> ops[i] == before[i];
      }
    }
  }

  /** OPEN and HALF_OPEN are entered only after a recorded failure. */
  lemma {:induction false} NotClosedHasFailed(p: Policy, ops: seq<Op>)
    requires p.Sound()
    ensures !Run(p, FRESH, ops).mode.Closed? ==> Run(p, FRESH, ops).lastFailureTime.Some?
  {
    if ops == [] {
    } else {
      RunSnoc(p, ops);
      NotClosedHasFailed(p, ops[..|ops| - 1]);
    }
  }

  /** On a positive monotone clock, an OPEN breaker admits at `now` exactly when the recovery
      timeout has passed since every failure recorded so far, late outcomes included. */
  lemma OpenAdmitsIffRecovered(p: Policy, ops: seq<Op>, now: int)
    requires p.Sound() && Timed(ops)
    requires Run(p, FRESH, ops).mode.Open?
    ensures Admits(p, Run(p, FRESH, ops), now)
            <==> forall i :: 0 <= i < |ops| && ops[i].Failure? ==> now - ops[i].now >= p.recoveryTimeout
  {
    NotClosedHasFailed(p, ops);
    LastFailureTimeIsLatest(p, ops);
    var t := Run(p, FRESH, ops).lastFailureTime.value;
    var k :| 0 <= k < |ops| && ops[k] == Failure(t) && forall j :: k < j < |ops| ==> !ops[j].Failure?;
    forall i | 0 <= i < |ops| && ops[i].Failure? ensures ops[i].now <= t {
      if i < k {
        assert ops[i].now <= ops[k].now;
      }
    }
  }

  /** A failure that completes or prolongs a full streak leaves the breaker OPEN, in whatever mode it
      found it and however many half-open slots were taken: it then admits exactly from one recovery
      timeout after that failure on. */
  lemma FailureReopens(p: Policy, ops: seq<Op>, t: int, k: nat, now: int)
    requires p.Sound() && Timed(ops + [Failure(t)]) && k <= |ops| + 1
    requires StreakStart(p, ops + [Failure(t)], k) && CountFailures((ops + [Failure(t)])[k..]) >= p.failureThreshold
    ensures var b := Run(p, FRESH, ops + [Failure(t)]);
            b.mode.Open? && (Admits(p, b, now) <==> now >= t + p.recoveryTimeout)
  {
    var all := ops + [Failure(t)];
    var n := |all| - 1;
    FailureCountIsStreak(p, all, k);
    ClosedIffBelowThreshold(p, all);
    RunSnoc(p, all);
    assert all[n] == Failure(t) && all[..n] == ops;
  }

  /** Only an admitted request, never an outcome, makes an OPEN breaker leave that mode. */
  lemma OnlyAdmissionLeavesOpen(p: Policy, ops: seq<Op>, op: Op)
    requires p.Sound() && Run(p, FRESH, ops).mode.Open?
    ensures !Run(p, FRESH, ops + [op]).mode.Open? <==> op.Ask? && Admits(p, Run(p, FRESH, ops), op.now)
  {
    RunSnoc(p, ops + [op]);
    assert (ops + [op])[..|ops|] == ops;
  }

  // ---------- The breaker without modes ----------

  /** A simpler machine that only counts: failures since the last success that counted, and requests
      admitted since the latest failure. */
  datatype Tally = Tally(streak: nat, latest: Option<int>, probes: nat)

  predicate TallyAdmits(p: Policy, t: Tally, now: int) {
    if t.streak < p.failureThreshold then true
    else if t.probes > 0 then t.probes <= p.halfOpenMaxCalls
    else t.latest.Some? && t.latest.value != 0 && now >= t.latest.value + p.recoveryTimeout
  }

  /** After a full streak a success counts only if a request was admitted since the latest failure. */
  function TallyOf(p: Policy, ops: seq<Op>): Tally {
    if ops == [] then Tally(0, None, 0)
    else
      var t := TallyOf(p, ops[..|ops| - 1]);
      match ops[|ops| - 1]
      case Failure(now) => Tally(t.streak + 1, Some(now), 0)
      case Success => if t.streak < p.failureThreshold || t.probes > 0 then Tally(0, t.latest, 0) else t
      case Ask(now) =>
        if t.streak >= p.failureThreshold && TallyAdmits(p, t, now) then t.(probes := t.probes + 1) else t
  }

  /** How the modes encode the counts. */
  ghost predicate Encodes(p: Policy, b: Breaker, t: Tally) {
    && b.failureCount == t.streak && b.lastFailureTime == t.latest
    && (b.mode.Closed? <==> t.streak < p.failureThreshold)
    && (b.mode.HalfOpen? <==> t.streak >= p.failureThreshold && t.probes > 0)
    && b.halfOpenCalls == (if b.mode.HalfOpen? then t.probes - 1 else 0)
    && (b.mode.Closed? ==> t.probes == 0)
  }

  lemma {:induction false} BreakerRefinesTally(p: Policy, ops: seq<Op>)
    requires p.Sound()
    ensures Encodes(p, Run(p, FRESH, ops), TallyOf(p, ops))
  {
    if ops == [] {
    } else {
      BreakerRefinesTally(p, ops[..|ops| - 1]);
      RunSnoc(p, ops);
    }
  }

  /** After every history, on any clock, the breaker answers the next request as the tally does. */
  lemma DecisionsRefineTally(p: Policy, ops: seq<Op>, now: int)
    requires p.Sound()
    ensures Admits(p, Run(p, FRESH, ops), now) <==> TallyAdmits(p, TallyOf(p, ops), now)
  {
    BreakerRefinesTally(p, ops);
  }

  // ---------- The amortised admission bound ----------

  /** Every timed operation of `ops` lies in the closed interval [from, until], in order. */
  ghost predicate Within(ops: seq<Op>, from: int, until: int) {
    && (forall i :: 0 <= i < |ops| && !ops[i].Success? ==> from <= ops[i].now <= until)
    && (forall i, j :: 0 <= i < j < |ops| && !ops[i].Success? && !ops[j].Success? ==> ops[i].now <= ops[j].now)
  }

  ghost predicate NoSuccess(ops: seq<Op>) {
    forall i :: 0 <= i < |ops| ==> !ops[i].Success?
  }

  lemma TailWithin(ops: seq<Op>, from: int, until: int)
    requires ops != [] && Within(ops, from, until) && NoSuccess(ops)
    ensures NoSuccess(ops[1..]) && Within(ops[1..], ops[0].now, until)
  {
    var tail := ops[1..];
    forall i | 0 <= i < |tail| ensures !tail[i].Success? && ops[0].now <= tail[i].now <= until {
      assert tail[i] == ops[i + 1];
    }
    forall i, j | 0 <= i < j < |tail| ensures tail[i].now <= tail[j].now {
      assert tail[i] == ops[i + 1] && tail[j] == ops[j + 1];
    }
  }

  /** Recovery periods, counted in whole units: `n` of them cover the time from `from` to `until`. */
  ghost predicate Covers(p: Policy, n: int, from: int, until: int) {
    until - from < n * p.recoveryTimeout
  }

  /** From an OPEN breaker whose next recovery is not before `ready`: at most one half-open
      episode per recovery period that starts within the interval. */
  lemma {:induction false} OpenBound(p: Policy, b: Breaker, ops: seq<Op>, from: int, until: int, n: nat)
    requires p.Sound() && b.mode.Open? && NoSuccess(ops) && Within(ops, from, until)
    requires Covers(p, n, from, until)
             || (b.lastFailureTime.Some? && b.lastFailureTime.value <= from
                 && Covers(p, n, b.lastFailureTime.value + p.recoveryTimeout, until))
    ensures Admissions(p, b, ops) <= (p.halfOpenMaxCalls + 1) * n
    decreases |ops|
  {
    if ops == [] {
    } else {
      TailWithin(ops, from, until);
      var c := Step(p, b, ops[0]);
      var t := ops[0].now;
      match ops[0]
      case Ask(_) =>
        if Recovered(p, b, t) {
          assert until - t < n * p.recoveryTimeout;
          assert n > 0;
          assert (n - 1) * p.recoveryTimeout == n * p.recoveryTimeout - p.recoveryTimeout;
          HalfOpenBound(p, c, ops[1..], t, until, n - 1);
          assert (p.halfOpenMaxCalls + 1) * n == (p.halfOpenMaxCalls + 1) * (n - 1) + p.halfOpenMaxCalls + 1;
        } else {
          OpenBound(p, c, ops[1..], t, until, n);
        }
      case Failure(_) =>
        OpenBound(p, c, ops[1..], t, until, n);
    }
  }

  /** From a HALF_OPEN breaker: the unused slots, and one episode per later recovery period. */
  lemma {:induction false} HalfOpenBound(p: Policy, b: Breaker, ops: seq<Op>, from: int, until: int, n: nat)
    requires p.Sound() && b.mode.HalfOpen? && 0 <= b.halfOpenCalls <= p.halfOpenMaxCalls
    requires NoSuccess(ops) && Within(ops, from, until)
    requires Covers(p, n, from + p.recoveryTimeout, until)
    ensures Admissions(p, b, ops) <= p.halfOpenMaxCalls - b.halfOpenCalls + (p.halfOpenMaxCalls + 1) * n
    decreases |ops|
  {
    if ops == [] {
    } else {
      TailWithin(ops, from, until);
      var c := Step(p, b, ops[0]);
      match ops[0]
      case Ask(t) => HalfOpenBound(p, c, ops[1..], t, until, n);
      case Failure(t) => OpenBound(p, c, ops[1..], t, until, n);
    }
  }

  /** The half-open counter never exceeds its limit while HALF_OPEN, and CLOSED stays unreachable without a success. */
  lemma {:induction false} StaysTripped(p: Policy, b: Breaker, ops: seq<Op>)
    requires p.Sound() && NoSuccess(ops) && !b.mode.Closed?
    requires b.mode.HalfOpen? ==> 0 <= b.halfOpenCalls <= p.halfOpenMaxCalls
    ensures var c := Run(p, b, ops);
            !c.mode.Closed? && (c.mode.HalfOpen? ==> 0 <= c.halfOpenCalls <= p.halfOpenMaxCalls)
    decreases |ops|
  {
    if ops == [] {
    } else {
      StaysTripped(p, Step(p, b, ops[0]), ops[1..]);
    }
  }

  /** In a run segment that starts OPEN and records no success, any time interval of length
      `length` admits at most (halfOpenMaxCalls + 1) * (length div recoveryTimeout + 1) requests.
      `before` is the part of the segment ahead of the interval. */
  lemma AmortisedAdmissionBound(p: Policy, b: Breaker, before: seq<Op>, during: seq<Op>, start: int, length: nat)
    requires p.Sound() && b.mode.Open?
    requires NoSuccess(before) && NoSuccess(during)
    requires Within(during, start, start + length)
    ensures Admissions(p, Run(p, b, before), during)
            <= (p.halfOpenMaxCalls + 1) * (length / p.recoveryTimeout + 1)
  {
    hide Admissions, Run, NoSuccess, Within;
    StaysTripped(p, b, before);
    var c := Run(p, b, before);
    var n := length / p.recoveryTimeout;
    assert length < (n + 1) * p.recoveryTimeout;
    if c.mode.Open? {
      OpenBound(p, c, during, start, start + length, n + 1);
    } else {
      assert (n + 1) * p.recoveryTimeout == n * p.recoveryTimeout + p.recoveryTimeout;
      HalfOpenBound(p, c, during, start, start + length, n);
      assert (p.halfOpenMaxCalls + 1) * (n + 1) == (p.halfOpenMaxCalls + 1) * n + p.halfOpenMaxCalls + 1;
    }
  }

  // ---------- The bound is attained ----------

  function Asks(k: nat, now: int): seq<Op> {
    seq(k, i => Ask(now))
  }

  lemma {:induction false} AdmissionsAppend(p: Policy, b: Breaker, ops: seq<Op>, more: seq<Op>)
    ensures Admissions(p, b, ops + more) == Admissions(p, b, ops) + Admissions(p, Run(p, b, ops), more)
    decreases |ops|
  {
    if ops == [] {
      assert ops + more == more;
    } else {
      assert (ops + more)[0] == ops[0] && (ops + more)[1..] == ops[1..] + more;
      AdmissionsAppend(p, Step(p, b, ops[0]), ops[1..], more);
    }
  }

  lemma {:induction false} HalfOpenFillsUp(p: Policy, b: Breaker, k: nat, now: int)
    requires b.mode.HalfOpen? && b.halfOpenCalls + k <= p.halfOpenMaxCalls
    ensures Admissions(p, b, Asks(k, now)) == k
    ensures Run(p, b, Asks(k, now)) == b.(halfOpenCalls := b.halfOpenCalls + k)
    decreases k
  {
    if k == 0 {
    } else {
      assert Asks(k, now)[1..] == Asks(k - 1, now);
      HalfOpenFillsUp(p, Step(p, b, Ask(now)), k - 1, now);
    }
  }

  /** A burst at the instant of recovery is admitted entirely and takes every half-open slot: the
      request that enters HALF_OPEN is not counted. */
  lemma BurstIsAdmitted(p: Policy, b: Breaker, now: int)
    requires p.Sound() && b.mode.Open? && Recovered(p, b, now)
    ensures var burst := Asks(p.halfOpenMaxCalls + 1, now);
            && Admissions(p, b, burst) == p.halfOpenMaxCalls + 1
            && Run(p, b, burst) == b.(mode := HalfOpen, halfOpenCalls := p.halfOpenMaxCalls)
  {
    var burst := Asks(p.halfOpenMaxCalls + 1, now);
    assert burst[1..] == Asks(p.halfOpenMaxCalls, now);
    HalfOpenFillsUp(p, Step(p, b, Ask(now)), p.halfOpenMaxCalls, now);
  }

  /** A burst and one failure every recovery period, `k` times, and a last burst. */
  function Bursts(p: Policy, start: int, k: nat): seq<Op>
    requires p.Sound()
    decreases k
  {
    var burst := Asks(p.halfOpenMaxCalls + 1, start);
    if k == 0 then burst else burst + [Failure(start)] + Bursts(p, start + p.recoveryTimeout, k - 1)
  }

  lemma {:induction false} BurstsFit(p: Policy, start: int, k: nat)
    requires p.Sound()
    ensures NoSuccess(Bursts(p, start, k)) && Within(Bursts(p, start, k), start, start + k * p.recoveryTimeout)
    decreases k
  {
    if k == 0 {
    } else {
      BurstsFit(p, start + p.recoveryTimeout, k - 1);
      assert (k - 1) * p.recoveryTimeout == k * p.recoveryTimeout - p.recoveryTimeout;
      OneMoreBurst(Asks(p.halfOpenMaxCalls + 1, start) + [Failure(start)], Bursts(p, start + p.recoveryTimeout, k - 1),
                   start, start + p.recoveryTimeout, start + k * p.recoveryTimeout);
    }
  }

  lemma OneMoreBurst(now: seq<Op>, later: seq<Op>, start: int, from: int, until: int)
    requires forall i :: 0 <= i < |now| ==> !now[i].Success? && now[i].now == start
    requires NoSuccess(later) && Within(later, from, until) && start <= from <= until
    ensures NoSuccess(now + later) && Within(now + later, start, until)
  {
  }

  lemma {:induction false} BurstsAreAdmitted(p: Policy, b: Breaker, start: int, k: nat)
    requires p.Sound() && b.mode.Open? && Recovered(p, b, start) && start > 0
    ensures Admissions(p, b, Bursts(p, start, k)) == (p.halfOpenMaxCalls + 1) * (k + 1)
    decreases k
  {
    BurstIsAdmitted(p, b, start);
    if k == 0 {
    } else {
      var burst := Asks(p.halfOpenMaxCalls + 1, start);
      var later := Bursts(p, start + p.recoveryTimeout, k - 1);
      var full := Run(p, b, burst);
      var reopened := Step(p, full, Failure(start));
      BurstsAreAdmitted(p, reopened, start + p.recoveryTimeout, k - 1);
      assert ([Failure(start)] + later)[1..] == later;
      assert Admissions(p, full, [Failure(start)] + later) == Admissions(p, reopened, later);
      AdmissionsAppend(p, b, burst, [Failure(start)] + later);
      assert burst + [Failure(start)] + later == burst + ([Failure(start)] + later);
      assert (p.halfOpenMaxCalls + 1) * (k + 1) == (p.halfOpenMaxCalls + 1) * k + p.halfOpenMaxCalls + 1;
    }
  }

  /** The bound of `AmortisedAdmissionBound` is attained for intervals of every length, from every OPEN
      breaker and every positive instant at which it has recovered. */
  lemma AdmissionBoundIsTight(p: Policy, b: Breaker, start: int, length: nat) returns (during: seq<Op>)
    requires p.Sound() && b.mode.Open? && Recovered(p, b, start) && start > 0
    ensures NoSuccess(during) && Within(during, start, start + length)
    ensures Admissions(p, b, during) == (p.halfOpenMaxCalls + 1) * (length / p.recoveryTimeout + 1)
  {
    var k := length / p.recoveryTimeout;
    during := Bursts(p, start, k);
    BurstsFit(p, start, k);
    BurstsAreAdmitted(p, b, start, k);
    assert k * p.recoveryTimeout <= length;
  }

  // ---------- When a breaker never admits again ----------

  /** Every half-open slot is taken, and no probe has reported since. */
  predicate Blocked(p: Policy, b: Breaker) {
    b.mode.HalfOpen? && b.halfOpenCalls >= p.halfOpenMaxCalls
  }

  /** Requests only, at instants not before `t`. */
  ghost predicate AsksFrom(ops: seq<Op>, t: int) {
    forall i :: 0 <= i < |ops| ==> ops[i].Ask? && ops[i].now >= t
  }

  /** A blocked breaker admits nothing and does not change until an outcome arrives. */
  lemma {:induction false} LostProbesBlockForever(p: Policy, b: Breaker, ops: seq<Op>)
    requires Blocked(p, b)
    requires forall i :: 0 <= i < |ops| ==> ops[i].Ask?
    ensures Admissions(p, b, ops) == 0 && Run(p, b, ops) == b
  {
    if ops == [] {
    } else {
      assert Step(p, b, ops[0]) == b;
      LostProbesBlockForever(p, b, ops[1..]);
    }
  }

  /** After any history on a positive monotone clock, the breaker refuses every later request, as long
      as no outcome arrives, if and only if it is blocked. */
  lemma RefusesForeverIff(p: Policy, ops: seq<Op>, t: int)
    requires p.Sound() && Timed(ops)
    ensures (forall asks :: AsksFrom(asks, t) ==> Admissions(p, Run(p, FRESH, ops), asks) == 0)
            <==> Blocked(p, Run(p, FRESH, ops))
  {
    var b := Run(p, FRESH, ops);
    if Blocked(p, b) {
      forall asks | AsksFrom(asks, t) ensures Admissions(p, b, asks) == 0 {
        LostProbesBlockForever(p, b, asks);
      }
    } else {
      NotClosedHasFailed(p, ops);
      LastFailureTimeIsLatest(p, ops);
      var now := if b.mode.Open? then Max(t, b.lastFailureTime.value + p.recoveryTimeout) else t;
      assert Admits(p, b, now);
      assert AsksFrom([Ask(now)], t) && Admissions(p, b, [Ask(now)]) == 1;
    }
  }

  function Failures(k: nat, now: int): seq<Op> {
    seq(k, i => Failure(now))
  }

  lemma {:induction false} FailuresOpen(p: Policy, k: nat, now: int)
    requires p.Sound() && k <= p.failureThreshold
    ensures var b := Run(p, FRESH, Failures(k, now));
            && b.failureCount == k && b.mode == (if k < p.failureThreshold then Closed else Open)
            && (k > 0 ==> b.lastFailureTime == Some(now))
  {
    if k == 0 {
    } else {
      FailuresOpen(p, k - 1, now);
      RunSnoc(p, Failures(k, now));
      assert Failures(k, now)[..k - 1] == Failures(k - 1, now);
    }
  }

  /** A full streak of failures, and one burst when the timeout has passed. */
  function BlockingHistory(p: Policy, now: int): seq<Op>
    requires p.Sound()
  {
    Failures(p.failureThreshold, now) + Asks(p.halfOpenMaxCalls + 1, now + p.recoveryTimeout)
  }

  /** So a fresh breaker can get blocked, under every policy and from every positive instant on. */
  lemma BlockingIsReachable(p: Policy, now: int)
    requires p.Sound() && now > 0
    ensures Timed(BlockingHistory(p, now)) && Blocked(p, Run(p, FRESH, BlockingHistory(p, now)))
  {
    var failures := Failures(p.failureThreshold, now);
    FailuresOpen(p, p.failureThreshold, now);
    BurstIsAdmitted(p, Run(p, FRESH, failures), now + p.recoveryTimeout);
    RunAppend(p, FRESH, failures, Asks(p.halfOpenMaxCalls + 1, now + p.recoveryTimeout));
  }

  /** A late outcome is the only way out. A success admits every request at once; a failure admits one
      exactly from one recovery timeout later on. */
  lemma OutcomeUnblocks(p: Policy, b: Breaker, op: Op, t: int)
    requires Blocked(p, b) && (op.Failure? ==> op.now > 0)
    ensures var c := Step(p, b, op);
            && (c == b <==> op.Ask?)
            && (op.Success? ==> Admits(p, c, t))
            && (op.Failure? ==> (Admits(p, c, t) <==> t >= op.now + p.recoveryTimeout))
  {
  }

  /** A blocked breaker stays as it is throughout `ops` if and only if `ops` contains no outcome. */
  lemma BlockedExactlyUntilOutcome(p: Policy, b: Breaker, ops: seq<Op>)
    requires Blocked(p, b)
    ensures (forall k :: 0 <= k <= |ops| ==> Run(p, b, ops[..k]) == b) <==> forall i :: 0 <= i < |ops| ==> ops[i].Ask?
  {
    if forall i :: 0 <= i < |ops| ==> ops[i].Ask? {
      forall k | 0 <= k <= |ops| ensures Run(p, b, ops[..k]) == b {
        LostProbesBlockForever(p, b, ops[..k]);
      }
    } else {
      var i :| 0 <= i < |ops| && !ops[i].Ask?;
      if Run(p, b, ops[..i]) == b {
        RunAppend(p, b, ops[..i], [ops[i]]);
        assert ops[..i + 1] == ops[..i] + [ops[i]];
        assert [ops[i]][1..] == [];
        assert Run(p, b, [ops[i]]) == Step(p, b, ops[i]);
        assert Run(p, b, ops[..i + 1]) != b;
      }
    }
  }
}
