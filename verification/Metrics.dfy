/** The bounded latency window and the quantiles computed from it. */
module Metrics {
  const WINDOW_LIMIT: nat := 1000
  const WINDOW_KEEP: nat := 500

  /** Append one latency; a list longer than the limit is cut to its last entries. */
  function Push(window: seq<real>, latency: real): seq<real> {
    var longer := window + [latency];
    if |longer| > WINDOW_LIMIT then longer[|longer| - WINDOW_KEEP..] else longer
  }

  datatype Record = Record(key: string, latency: real, status: int)

  datatype State = State(latencies: map<string, seq<real>>, errors: map<(string, int), nat>)

  /** A key that was never recorded has an empty window. */
  function WindowOf(latencies: map<string, seq<real>>, key: string): seq<real> {
    if key in latencies then latencies[key] else []
  }

  function CountOf(errors: map<(string, int), nat>, key: (string, int)): nat {
    if key in errors then errors[key] else 0
  }

  function AfterRecord(s: State, r: Record): State {
    State(s.latencies[r.key := Push(WindowOf(s.latencies, r.key), r.latency)],
          if r.status < 400 then s.errors
          else s.errors[(r.key, r.status) := CountOf(s.errors, (r.key, r.status)) + 1])
  }

  class RequestMetrics {
    var latencies: map<string, seq<real>>
    var errors: map<(string, int), nat>

    constructor ()
      ensures latencies == map[] && errors == map[]
    {
      latencies, errors := map[], map[];
    }

    ghost function View(): State
      reads this
    {
      State(latencies, errors)
    }

    /** `key` is "method:path"; errors are counted per key and status code. */
    method RecordRequest(key: string, latency: real, status: int)
      modifies this
      ensures View() == AfterRecord(old(View()), Record(key, latency, status))
    {
      latencies := latencies[key := WindowOf(latencies, key) + [latency]];
      if |latencies[key]| > WINDOW_LIMIT {
        latencies := latencies[key := latencies[key][|latencies[key]| - WINDOW_KEEP..]];
      }
      if status >= 400 {
        errors := errors[(key, status) := CountOf(errors, (key, status)) + 1];
      }
    }
  }

  function WindowSize(n: nat): nat {
    if n <= 1000 then n else 500 + (n - 1001) % 501
  }

  /** The window one record later. */
  lemma SizeStep(n: nat)
    ensures WindowSize(n + 1) == (if WindowSize(n) == WINDOW_LIMIT then WINDOW_KEEP else WindowSize(n) + 1)
    ensures WindowSize(n + 1) <= WINDOW_LIMIT && WindowSize(n + 1) <= n + 1
    ensures WindowSize(0) == 0
  {
    if n > WINDOW_LIMIT {
      var m := n - WINDOW_LIMIT - 1;
      if m % 501 == 500 {
        assert (m + 1) % 501 == 0;
      } else {
        assert (m + 1) % 501 == m % 501 + 1;
      }
    }
  }

  lemma {:induction false} SizeFits(n: nat)
    ensures WindowSize(n) <= WINDOW_LIMIT && WindowSize(n) <= n
  {
    if n == 0 {
    } else {
      SizeStep(n - 1);
    }
  }

  /** The last entries of a full history that the window keeps. */
  function Kept(history: seq<real>): seq<real> {
    SizeFits(|history|);
    history[|history| - WindowSize(|history|)..]
  }

  lemma PushKeepsSuffix(history: seq<real>, latency: real)
    ensures Push(Kept(history), latency) == Kept(history + [latency])
  {
    hide WindowSize;
    var n := |history|;
    SizeFits(n);
    SizeStep(n);
    var longer := Kept(history) + [latency];
    assert longer == (history + [latency])[n - WindowSize(n)..];
  }

  /** The state after recording `rs` one by one. */
  function AfterRecords(rs: seq<Record>): State {
    if rs == [] then State(map[], map[]) else AfterRecord(AfterRecords(rs[..|rs| - 1]), rs[|rs| - 1])
  }

  /** All latencies ever recorded for `key`, in order. */
  function LatenciesOf(rs: seq<Record>, key: string): seq<real> {
    if rs == [] then []
    else
      var before, r := LatenciesOf(rs[..|rs| - 1], key), rs[|rs| - 1];
      if r.key == key then before + [r.latency] else before
  }

  /** How many records of `key` ended with the error status `status`. */
  function ErrorsOf(rs: seq<Record>, key: string, status: int): nat {
    if rs == [] then 0
    else ErrorsOf(rs[..|rs| - 1], key, status)
         + if rs[|rs| - 1].key == key && rs[|rs| - 1].status == status && status >= 400 then 1 else 0
  }

  lemma NothingKept()
    ensures Kept([]) == []
  {
  }

  lemma StoredStep(s: State, r: Record, key: string, full: seq<real>)
    requires WindowOf(s.latencies, key) == Kept(full)
    ensures var longer := if r.key == key then full + [r.latency] else full;
            WindowOf(AfterRecord(s, r).latencies, key) == Kept(longer)
  {
    hide Push, Kept;
    PushKeepsSuffix(full, r.latency);
  }

  lemma {:induction false} StoredIsKept(rs: seq<Record>, key: string)
    ensures WindowOf(AfterRecords(rs).latencies, key) == Kept(LatenciesOf(rs, key))
    ensures key in AfterRecords(rs).latencies <==> LatenciesOf(rs, key) != []
  {
    hide Kept, AfterRecord;
    if rs == [] {
      NothingKept();
    } else {
      var before, r := rs[..|rs| - 1], rs[|rs| - 1];
      StoredIsKept(before, key);
      StoredStep(AfterRecords(before), r, key, LatenciesOf(before, key));
      KeysGrow(AfterRecords(before), r, key);
    }
  }

  lemma KeysGrow(s: State, r: Record, key: string)
    ensures key in AfterRecord(s, r).latencies <==> key in s.latencies || key == r.key
  {
  }

  /** After any records over many keys, the list of a key holds exactly the last latencies of that key's
      own full history: all of them up to 1000, and 500 + ((n - 1001) mod 501) of them from then on. */
  lemma WindowIsSuffix(rs: seq<Record>, key: string)
    ensures key in AfterRecords(rs).latencies <==> LatenciesOf(rs, key) != []
    ensures var full := LatenciesOf(rs, key);
            && WindowSize(|full|) <= |full| && WindowSize(|full|) <= 1000
            && (key in AfterRecords(rs).latencies ==>
                  AfterRecords(rs).latencies[key] == full[|full| - WindowSize(|full|)..])
  {
    hide WindowSize, Push;
    SizeFits(|LatenciesOf(rs, key)|);
    StoredIsKept(rs, key);
  }

  /** The error count of a key and status is the number of such records, and absent if there are none. */
  lemma {:induction false} ErrorsAreCounted(rs: seq<Record>, key: string, status: int)
    ensures (key, status) in AfterRecords(rs).errors <==> ErrorsOf(rs, key, status) > 0
    ensures CountOf(AfterRecords(rs).errors, (key, status)) == ErrorsOf(rs, key, status)
  {
    hide Push;
    if rs == [] {
    } else {
      ErrorsAreCounted(rs[..|rs| - 1], key, status);
    }
  }

  // ---------- Percentiles ----------

  ghost predicate Ascending(s: seq<real>) {
    forall i, j :: 0 <= i < j < |s| ==> s[i] <= s[j]
  }

  function Insert(s: seq<real>, x: real): (r: seq<real>)
    ensures |r| == |s| + 1
  {
    if s == [] || s[|s| - 1] <= x then s + [x]
    else Insert(s[..|s| - 1], x) + [s[|s| - 1]]
  }

  /** `sorted(values)`. */
  function Sort(s: seq<real>): (r: seq<real>)
    ensures |r| == |s|
  {
    if s == [] then [] else Insert(Sort(s[..|s| - 1]), s[|s| - 1])
  }

  lemma {:induction false} InsertAddsOne(s: seq<real>, x: real)
    ensures multiset(Insert(s, x)) == multiset(s) + multiset{x}
  {
    if s == [] || s[|s| - 1] <= x {
    } else {
      InsertAddsOne(s[..|s| - 1], x);
      assert s == s[..|s| - 1] + [s[|s| - 1]];
    }
  }

  lemma {:induction false} InsertKeepsOrder(s: seq<real>, x: real)
    requires Ascending(s)
    ensures Ascending(Insert(s, x))
  {
    if s == [] {
    } else if s[|s| - 1] <= x {
      forall i | 0 <= i < |s| ensures s[i] <= x {
        assert s[i] <= s[|s| - 1];
      }
    } else {
      var before, last := s[..|s| - 1], s[|s| - 1];
      InsertKeepsOrder(before, x);
      InsertAddsOne(before, x);
      var r := Insert(before, x);
      forall i | 0 <= i < |r| ensures r[i] <= last {
        assert r[i] in multiset(r);
        assert r[i] == x || r[i] in before;
      }
    }
  }

  /** Sorting orders the values and keeps every one of them. */
  lemma {:induction false} SortIsCorrect(s: seq<real>)
    ensures Ascending(Sort(s)) && multiset(Sort(s)) == multiset(s)
  {
    if s == [] {
    } else {
      SortIsCorrect(s[..|s| - 1]);
      InsertKeepsOrder(Sort(s[..|s| - 1]), s[|s| - 1]);
      InsertAddsOne(Sort(s[..|s| - 1]), s[|s| - 1]);
      assert s == s[..|s| - 1] + [s[|s| - 1]];
    }
  }

  /** `min(int(n * percentile / 100), n - 1)`. */
  function Rank(n: nat, percentile: int): int {
    var idx := n * percentile / 100;
    if idx < n - 1 then idx else n - 1
  }

  lemma RankBounds(n: nat, p: int)
    requires n > 0 && 0 <= p
    ensures 0 <= Rank(n, p) < n && 100 * Rank(n, p) <= n * p
    ensures p < 100 ==> n * p < 100 * (Rank(n, p) + 1)
    ensures p >= 100 ==> Rank(n, p) == n - 1
  {
    assert 0 <= n * p;
    if p < 100 {
      assert n * p < n * 100;
    } else {
      assert n * 100 <= n * p;
    }
  }

  lemma RankMonotone(n: nat, p: int, q: int)
    requires n > 0 && 0 <= p <= q
    ensures 0 <= Rank(n, p) <= Rank(n, q) < n
  {
    assert 0 <= n * p <= n * q;
  }

  /** A percentage is never negative where this is called, and may exceed 100. */
  function Percentile(values: seq<real>, percentile: int): real
    requires 0 <= percentile
  {
    if values == [] then 0.0
    else
      RankMonotone(|values|, percentile, percentile);
      Sort(values)[Rank(|values|, percentile)]
  }

  function CountAtMost(s: seq<real>, x: real): nat {
    if s == [] then 0 else CountAtMost(s[..|s| - 1], x) + if s[|s| - 1] <= x then 1 else 0
  }

  function CountBelow(s: seq<real>, x: real): nat {
    if s == [] then 0 else CountBelow(s[..|s| - 1], x) + if s[|s| - 1] < x then 1 else 0
  }

  lemma {:induction false} CountsAppend(s: seq<real>, t: seq<real>, x: real)
    ensures CountAtMost(s + t, x) == CountAtMost(s, x) + CountAtMost(t, x)
    ensures CountBelow(s + t, x) == CountBelow(s, x) + CountBelow(t, x)
    decreases |t|
  {
    if t == [] {
      assert s + t == s;
    } else {
      assert (s + t)[..|s + t| - 1] == s + t[..|t| - 1];
      CountsAppend(s, t[..|t| - 1], x);
    }
  }

  lemma CountsOfOne(v: real, x: real)
    ensures CountAtMost([v], x) == if v <= x then 1 else 0
    ensures CountBelow([v], x) == if v < x then 1 else 0
  {
    assert [v][..0] == [];
  }

  /** Taking one element out lowers each count by that element's share. */
  lemma CountsWithoutOne(t: seq<real>, i: nat, x: real)
    requires i < |t|
    ensures CountAtMost(t, x) == CountAtMost(t[..i] + t[i + 1..], x) + if t[i] <= x then 1 else 0
    ensures CountBelow(t, x) == CountBelow(t[..i] + t[i + 1..], x) + if t[i] < x then 1 else 0
  {
    hide CountAtMost, CountBelow;
    CountsAppend(t[..i], t[i + 1..], x);
    CountsAppend(t[..i], [t[i]] + t[i + 1..], x);
    CountsAppend([t[i]], t[i + 1..], x);
    CountsOfOne(t[i], x);
    assert t == t[..i] + ([t[i]] + t[i + 1..]);
  }

  lemma MultisetWithoutOne(t: seq<real>, i: nat)
    requires i < |t|
    ensures multiset(t[..i] + t[i + 1..]) == multiset(t) - multiset{t[i]}
  {
    assert t == t[..i] + [t[i]] + t[i + 1..];
  }

  /** Both counts depend only on the multiset of values. */
  lemma {:induction false} CountsArePermutationInvariant(s: seq<real>, t: seq<real>, x: real)
    requires multiset(s) == multiset(t)
    ensures CountAtMost(s, x) == CountAtMost(t, x) && CountBelow(s, x) == CountBelow(t, x)
    decreases |s|
  {
    if s == [] {
      assert |multiset(t)| == 0;
      assert t == [];
    } else {
      var i := PositionOf(t, s[|s| - 1], s);
      DropLast(s);
      MultisetWithoutOne(t, i);
      CountsWithoutOne(t, i, x);
      CountsArePermutationInvariant(s[..|s| - 1], t[..i] + t[i + 1..], x);
    }
  }

  lemma PositionOf(t: seq<real>, v: real, s: seq<real>) returns (i: nat)
    requires multiset(s) == multiset(t) && v in s
    ensures i < |t| && t[i] == v
  {
    assert v in multiset(s);
    assert v in multiset(t);
    i :| i < |t| && t[i] == v;
  }

  lemma DropLast(s: seq<real>)
    requires s != []
    ensures multiset(s[..|s| - 1]) == multiset(s) - multiset{s[|s| - 1]}
  {
    assert s == s[..|s| - 1] + [s[|s| - 1]];
  }

  /** In an ascending list at least `i + 1` values are at most `s[i]`, and at most `i` are below it. */
  lemma {:induction false} CountsAtIndex(s: seq<real>, i: nat)
    requires Ascending(s) && i < |s|
    ensures CountAtMost(s, s[i]) >= i + 1
    ensures CountBelow(s, s[i]) <= i
    decreases |s|
  {
    var n := |s| - 1;
    if i < n {
      assert s[..n][i] == s[i] && s[i] <= s[n];
      CountsAtIndex(s[..n], i);
    } else {
      CountsUpTo(s[..n], s[n]);
    }
  }

  lemma {:induction false} CountsUpTo(s: seq<real>, x: real)
    requires forall i :: 0 <= i < |s| ==> s[i] <= x
    ensures CountAtMost(s, x) == |s| && CountBelow(s, x) <= |s|
  {
    if s == [] {
    } else {
      CountsUpTo(s[..|s| - 1], x);
    }
  }

  /** The result is a true quantile of the values, for every whole percentage: a member, with at least
      that share of the values at most it and at most that share below it. Below 100 per cent the first
      share is exceeded, so it is the upper of two candidates; from 100 per cent on it is the greatest. */
  lemma PercentileIsQuantile(values: seq<real>, p: int)
    requires values != [] && 0 <= p
    ensures Percentile(values, p) in values
    ensures p < 100 ==> 100 * CountAtMost(values, Percentile(values, p)) > |values| * p
    ensures p >= 100 ==> CountAtMost(values, Percentile(values, p)) == |values|
    ensures 100 * CountBelow(values, Percentile(values, p)) <= |values| * p
  {
    hide Sort, Rank, CountAtMost, CountBelow;
    var sorted := Sort(values);
    SortIsCorrect(values);
    RankBounds(|values|, p);
    var i := Rank(|values|, p);
    assert sorted[i] in multiset(sorted);
    CountsAtIndex(sorted, i);
    CountsArePermutationInvariant(sorted, values, sorted[i]);
    if p >= 100 {
      CountsUpTo(sorted, sorted[i]);
    }
  }

  lemma NoValuesGiveZero(p: int)
    requires 0 <= p
    ensures Percentile([], p) == 0.0
  {
  }

  lemma LastIsGreatest(s: seq<real>, x: real)
    requires Ascending(s) && x in multiset(s)
    ensures s != [] && x <= s[|s| - 1]
  {
    var i :| 0 <= i < |s| && s[i] == x;
  }

  lemma SameLast(s: seq<real>, t: seq<real>)
    requires Ascending(s) && Ascending(t) && |s| == |t| > 0 && multiset(s) == multiset(t)
    ensures s[|s| - 1] == t[|t| - 1]
    ensures multiset(s[..|s| - 1]) == multiset(t[..|t| - 1])
  {
    var n := |s| - 1;
    DropLast(s);
    DropLast(t);
    assert s[n] in multiset(s) && t[n] in multiset(t);
    LastIsGreatest(t, s[n]);
    LastIsGreatest(s, t[n]);
  }

  lemma PrefixAscending(s: seq<real>)
    requires Ascending(s) && s != []
    ensures Ascending(s[..|s| - 1])
  {
  }

  /** Two ascending lists with the same elements are equal. */
  lemma {:induction false} AscendingIsUnique(s: seq<real>, t: seq<real>)
    requires Ascending(s) && Ascending(t) && |s| == |t| && multiset(s) == multiset(t)
    ensures s == t
  {
    if s == [] {
    } else {
      SameLast(s, t);
      PrefixAscending(s);
      PrefixAscending(t);
      AscendingIsUnique(s[..|s| - 1], t[..|t| - 1]);
    }
  }

  /** Only the multiset of values matters, and a larger percentage never gives a smaller value. */
  lemma PercentileIsMonotoneAndOrderFree(values: seq<real>, others: seq<real>, p: int, q: int)
    requires multiset(values) == multiset(others) && 0 <= p <= q
    ensures Percentile(values, p) == Percentile(others, p)
    ensures Percentile(values, p) <= Percentile(values, q)
  {
    hide Sort, Rank;
    SortIsCorrect(values);
    SortIsCorrect(others);
    assert |multiset(values)| == |values| && |multiset(others)| == |others|;
    AscendingIsUnique(Sort(values), Sort(others));
    if values != [] {
      RankMonotone(|values|, p, q);
    }
  }
}
