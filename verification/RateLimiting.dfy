/** The sliding-window rate limiter: it forgets old requests, yet decides as if it remembered all of them. */
module RateLimiting {
  import opened Basics

  const REQUESTS_PER_MINUTE: int := 300
  const WINDOW: int := 60 * SECOND

  type Counts = map<string, seq<int>>

  /** A client that was never seen has an empty list. */
  function Lookup(counts: Counts, client: string): seq<int> {
    if client in counts then counts[client] else []
  }

  /** The stamps less than one window old, in order. */
  function Recent(stamps: seq<int>, now: int): seq<int> {
    if stamps == [] then []
    else
      var last := stamps[|stamps| - 1];
      Recent(stamps[..|stamps| - 1], now) + if now - last < WINDOW then [last] else []
  }

  datatype Request = Request(host: Option<string>, now: int)
  {
    function Client(): string {
      if host.Some? then host.value else "unknown"
    }
  }

  predicate Accepts(counts: Counts, r: Request) {
    |Recent(Lookup(counts, r.Client()), r.now)| < REQUESTS_PER_MINUTE
  }

  function AfterRequest(counts: Counts, r: Request): Counts {
    var recent := Recent(Lookup(counts, r.Client()), r.now);
    counts[r.Client() := if Accepts(counts, r) then recent + [r.now] else recent]
  }

  class RateLimiter {
    var requestCounts: Counts

    constructor ()
      ensures requestCounts == map[]
    {
      requestCounts := map[];
    }

    /** The middleware up to the point where it answers 429 or passes the request on. */
    method Handle(r: Request) returns (accepted: bool)
      modifies this
      ensures accepted == Accepts(old(requestCounts), r)
      ensures requestCounts == AfterRequest(old(requestCounts), r)
    {
      var client := r.Client();
      requestCounts := requestCounts[client := Recent(Lookup(requestCounts, client), r.now)];
      if |requestCounts[client]| >= REQUESTS_PER_MINUTE {
        return false;
      }
      requestCounts := requestCounts[client := requestCounts[client] + [r.now]];
      return true;
    }
  }

  // ---------- The limiter that never forgets ----------

  /** One step of the reference limiter, which keeps every accepted stamp. */
  function Remember(history: Counts, r: Request): Counts {
    if Accepts(history, r) then history[r.Client() := Lookup(history, r.Client()) + [r.now]] else history
  }

  function Pruned(rs: seq<Request>): Counts {
    if rs == [] then map[] else AfterRequest(Pruned(rs[..|rs| - 1]), rs[|rs| - 1])
  }

  /** All stamps ever accepted, per client. */
  function History(rs: seq<Request>): Counts {
    if rs == [] then map[] else Remember(History(rs[..|rs| - 1]), rs[|rs| - 1])
  }

  ghost predicate Ordered(rs: seq<Request>) {
    forall i, j :: 0 <= i < j < |rs| ==> rs[i].now <= rs[j].now
  }

  /** From instant `t` on, both limiters see the same recent stamps of every client. */
  ghost predicate Agree(counts: Counts, history: Counts, t: int) {
    forall client, now :: now >= t ==> Recent(Lookup(counts, client), now) == Recent(Lookup(history, client), now)
  }

  lemma RecentSnoc(stamps: seq<int>, x: int, now: int)
    ensures Recent(stamps + [x], now) == Recent(stamps, now) + if now - x < WINDOW then [x] else []
  {
    assert (stamps + [x])[..|stamps|] == stamps;
  }

  lemma {:induction false} PruningIsInvisible(stamps: seq<int>, t: int, now: int)
    requires now >= t
    ensures Recent(Recent(stamps, t), now) == Recent(stamps, now)
  {
    if stamps == [] {
    } else {
      var before := stamps[..|stamps| - 1];
      var last := stamps[|stamps| - 1];
      PruningIsInvisible(before, t, now);
      if t - last < WINDOW {
        RecentSnoc(Recent(before, t), last, now);
      } else {
        assert Recent(stamps, t) == Recent(before, t);
        assert Recent(stamps, now) == Recent(before, now);
      }
    }
  }

  lemma AgreeStep(counts: Counts, history: Counts, t: int, r: Request)
    requires Agree(counts, history, t) && r.now >= t
    ensures Accepts(counts, r) == Accepts(history, r)
    ensures Agree(AfterRequest(counts, r), Remember(history, r), r.now)
  {
    var c := r.Client();
    assert Recent(Lookup(counts, c), r.now) == Recent(Lookup(history, c), r.now);
    forall client, now | now >= r.now
      ensures Recent(Lookup(AfterRequest(counts, r), client), now) == Recent(Lookup(Remember(history, r), client), now)
    {
      assert Recent(Lookup(counts, client), now) == Recent(Lookup(history, client), now);
      if client == c {
        PruningIsInvisible(Lookup(counts, c), r.now, now);
        RecentSnoc(Recent(Lookup(counts, c), r.now), r.now, now);
        RecentSnoc(Lookup(history, c), r.now, now);
      }
    }
  }

  lemma {:induction false} PrunedAgreesWithHistory(rs: seq<Request>)
    requires Ordered(rs)
    ensures rs == [] ==> Agree(Pruned(rs), History(rs), 0)
    ensures rs != [] ==> Agree(Pruned(rs), History(rs), rs[|rs| - 1].now)
  {
    if rs == [] {
    } else {
      var before := rs[..|rs| - 1];
      PrunedAgreesWithHistory(before);
      var t := if before == [] then rs[|rs| - 1].now else before[|before| - 1].now;
      assert Agree(Pruned(before), History(before), t);
      AgreeStep(Pruned(before), History(before), t, rs[|rs| - 1]);
    }
  }

  /** On a non-decreasing clock, the next request is rejected exactly when at least 300 accepted
      requests of the same client, out of the complete history, are less than 60 s old. */
  lemma DecisionsRefineFullHistory(rs: seq<Request>, r: Request)
    requires Ordered(rs + [r])
    ensures !Accepts(Pruned(rs), r)
            <==> |Recent(Lookup(History(rs), r.Client()), r.now)| >= REQUESTS_PER_MINUTE
    ensures Lookup(History(rs + [r]), r.Client())
            == Lookup(History(rs), r.Client()) + if Accepts(Pruned(rs), r) then [r.now] else []
    ensures forall other :: other != r.Client() ==> Lookup(History(rs + [r]), other) == Lookup(History(rs), other)
  {
    forall i, j | 0 <= i < j < |rs| ensures rs[i].now <= rs[j].now {
      assert (rs + [r])[i] == rs[i] && (rs + [r])[j] == rs[j];
    }
    PrunedAgreesWithHistory(rs);
    if rs != [] {
      assert (rs + [r])[|rs| - 1] == rs[|rs| - 1] && (rs + [r])[|rs|] == r;
    }
    AgreeStep(Pruned(rs), History(rs), if rs == [] then r.now else rs[|rs| - 1].now, r);
    assert (rs + [r])[..|rs|] == rs;
  }

  // ---------- Every host by itself ----------

  /** A request without a client address counts as one of the host "unknown". */
  predicate SameHost(a: Option<string>, b: Option<string>) {
    a == b || (a.None? && b == Some("unknown")) || (a == Some("unknown") && b.None?)
  }

  /** How many stamps are less than 60 s old. */
  function Younger(stamps: seq<int>, now: int): nat {
    if stamps == [] then 0
    else Younger(stamps[..|stamps| - 1], now) + if now < stamps[|stamps| - 1] + 60_000_000 then 1 else 0
  }

  /** A limiter for one host alone, which keeps every stamp: it accepts fewer than 300 within 60 s. */
  function AcceptedFrom(rs: seq<Request>, host: Option<string>): seq<int> {
    if rs == [] then []
    else
      var stamps, r := AcceptedFrom(rs[..|rs| - 1], host), rs[|rs| - 1];
      if SameHost(r.host, host) && Younger(stamps, r.now) < 300 then stamps + [r.now] else stamps
  }

  lemma {:induction false} RecentIsYounger(stamps: seq<int>, now: int)
    ensures |Recent(stamps, now)| == Younger(stamps, now)
  {
    if stamps == [] {
    } else {
      RecentIsYounger(stamps[..|stamps| - 1], now);
    }
  }

  lemma {:induction false} HistoryIsPerHost(rs: seq<Request>, host: Option<string>)
    ensures Lookup(History(rs), Request(host, 0).Client()) == AcceptedFrom(rs, host)
  {
    hide Recent;
    if rs == [] {
    } else {
      var before, r := rs[..|rs| - 1], rs[|rs| - 1];
      HistoryIsPerHost(before, host);
      RecentIsYounger(Lookup(History(before), r.Client()), r.now);
      assert SameHost(r.host, host) <==> r.Client() == Request(host, 0).Client();
    }
  }

  /** On a non-decreasing clock the next request is accepted exactly when fewer than 300 of the requests
      that its own host ever got accepted are less than 60 s old. */
  lemma EachHostIsLimitedByItself(rs: seq<Request>, r: Request)
    requires Ordered(rs + [r])
    ensures Accepts(Pruned(rs), r) <==> Younger(AcceptedFrom(rs, r.host), r.now) < 300
  {
    DecisionsRefineFullHistory(rs, r);
    HistoryIsPerHost(rs, r.host);
    RecentIsYounger(Lookup(History(rs), r.Client()), r.now);
  }

  // ---------- What the limit means in time ----------

  ghost predicate Sorted(stamps: seq<int>) {
    forall i, j :: 0 <= i < j < |stamps| ==> stamps[i] <= stamps[j]
  }

  /** In sorted stamps everything after a recent stamp is recent too. */
  lemma {:induction false} RecentIsLongSuffix(stamps: seq<int>, now: int, i: nat)
    requires Sorted(stamps) && i < |stamps| && now - stamps[i] < WINDOW
    ensures |Recent(stamps, now)| >= |stamps| - i
    decreases |stamps|
  {
    if i == |stamps| - 1 {
    } else {
      assert stamps[i] <= stamps[|stamps| - 1];
      RecentIsLongSuffix(stamps[..|stamps| - 1], now, i);
    }
  }

  /** Any 301 consecutive stamps span at least one window. */
  ghost predicate Spaced(stamps: seq<int>) {
    forall i :: 0 <= i && i + REQUESTS_PER_MINUTE < |stamps| ==> stamps[i + REQUESTS_PER_MINUTE] - stamps[i] >= WINDOW
  }

  ghost predicate UpTo(stamps: seq<int>, now: int) {
    forall i :: 0 <= i < |stamps| ==> stamps[i] <= now
  }

  /** A stamp accepted because its window was not full keeps the stamps spaced. */
  lemma AcceptingKeepsSpacing(stamps: seq<int>, now: int)
    requires Sorted(stamps) && Spaced(stamps) && UpTo(stamps, now)
    requires |Recent(stamps, now)| < REQUESTS_PER_MINUTE
    ensures Sorted(stamps + [now]) && Spaced(stamps + [now]) && UpTo(stamps + [now], now)
  {
    hide Recent;
    var i := |stamps| - REQUESTS_PER_MINUTE;
    if i >= 0 && now - stamps[i] < WINDOW {
      RecentIsLongSuffix(stamps, now, i);
    }
  }

  /** Any 301 consecutive accepted requests of one client span at least 60 s. */
  lemma {:induction false} AcceptedAreSpaced(rs: seq<Request>, client: string)
    requires Ordered(rs)
    ensures var h := Lookup(History(rs), client);
            && Sorted(h) && Spaced(h)
            && if rs == [] then h == [] else UpTo(h, rs[|rs| - 1].now)
  {
    hide Sorted, Spaced, Recent;
    if rs != [] {
      var before, r := rs[..|rs| - 1], rs[|rs| - 1];
      AcceptedAreSpaced(before, client);
      var h := Lookup(History(before), client);
      assert UpTo(h, r.now) by {
        assert before != [] ==> before[|before| - 1].now <= r.now;
      }
      if r.Client() == client && Accepts(History(before), r) {
        AcceptingKeepsSpacing(h, r.now);
      }
    } else {
      assert Sorted([]) && Spaced([]) by { NoStamps(); }
    }
  }

  lemma NoStamps()
    ensures Sorted([]) && Spaced([])
  {
  }

  /** The spacing adds up: `300 * m` acceptances later, at least `m` windows have passed. */
  lemma {:induction false} SpacingAddsUp(h: seq<int>, i: nat, m: nat)
    requires Spaced(h) && i + REQUESTS_PER_MINUTE * m < |h|
    ensures h[i + REQUESTS_PER_MINUTE * m] - h[i] >= WINDOW * m
  {
    if m == 0 {
    } else {
      SpacingAddsUp(h, i, m - 1);
      var k := i + REQUESTS_PER_MINUTE * (m - 1);
      assert h[k + REQUESTS_PER_MINUTE] - h[k] >= WINDOW;
    }
  }

  function CountIn(stamps: seq<int>, from: int, until: int): nat {
    if stamps == [] then 0
    else CountIn(stamps[..|stamps| - 1], from, until)
         + if from <= stamps[|stamps| - 1] <= until then 1 else 0
  }

  lemma {:induction false} CountAppend(a: seq<int>, b: seq<int>, from: int, until: int)
    ensures CountIn(a + b, from, until) == CountIn(a, from, until) + CountIn(b, from, until)
    ensures CountIn(b, from, until) <= |b|
    decreases |b|
  {
    if b == [] {
      assert a + b == a;
    } else {
      assert (a + b)[..|a + b| - 1] == a + b[..|b| - 1];
      CountAppend(a, b[..|b| - 1], from, until);
    }
  }

  lemma {:induction false} CountBefore(h: seq<int>, from: int, until: int)
    requires forall k :: 0 <= k < |h| ==> h[k] < from
    ensures CountIn(h, from, until) == 0
  {
    if h == [] {
    } else {
      CountBefore(h[..|h| - 1], from, until);
    }
  }

  lemma OnlyTheRestCounts(h: seq<int>, from: int, until: int, k: nat)
    requires k <= |h| && forall i :: 0 <= i < k ==> h[i] < from
    ensures CountIn(h, from, until) <= |h| - k
  {
    CountBefore(h[..k], from, until);
    CountAppend(h[..k], h[k..], from, until);
    assert h == h[..k] + h[k..];
  }

  lemma PrefixIsSpaced(h: seq<int>)
    requires h != [] && Sorted(h) && Spaced(h)
    ensures Sorted(h[..|h| - 1]) && Spaced(h[..|h| - 1])
  {
  }

  /** Sorted stamps that are spaced like the accepted ones: an interval holds at most `300 * m` of them. */
  lemma {:induction false} SpacedCount(h: seq<int>, from: int, until: int, m: nat)
    requires Sorted(h) && Spaced(h) && until - from < WINDOW * m
    ensures CountIn(h, from, until) <= REQUESTS_PER_MINUTE * m
    decreases |h|
  {
    hide Spaced;
    if h != [] && h[|h| - 1] > until {
      PrefixIsSpaced(h);
      SpacedCount(h[..|h| - 1], from, until, m);
    } else {
      hide CountIn;
      var k := Max(0, |h| - REQUESTS_PER_MINUTE * m);
      if k > 0 {
        SpacingAddsUp(h, k - 1, m);
        assert h[k - 1] < from;
      }
      OnlyTheRestCounts(h, from, until, k);
    }
  }

  lemma WindowsCover(length: nat)
    ensures length < WINDOW * (length / WINDOW + 1)
  {
  }

  /** Any time interval of length `length` contains at most 300 * (length div 60 s + 1) accepted
      requests of one client. */
  lemma IntervalBound(rs: seq<Request>, client: string, start: int, length: nat)
    requires Ordered(rs)
    ensures CountIn(Lookup(History(rs), client), start, start + length)
            <= REQUESTS_PER_MINUTE * (length / WINDOW + 1)
  {
    var h := Lookup(History(rs), client);
    hide Ordered, History, Sorted, Spaced, CountIn;
    AcceptedAreSpaced(rs, client);
    WindowsCover(length);
    SpacedCount(h, start, start + length, length / WINDOW + 1);
  }
}
