/** One breaker per terminal, and the two halves of a proxied request: ask, then at most one outcome. */
module BreakerRegistry {
  import opened Basics
  import opened CircuitBreakers

  type Breakers = map<string, Breaker>

  /** A key that was never used behaves like a fresh breaker. */
  function Lookup(bs: Breakers, key: string): Breaker {
    if key in bs then bs[key] else FRESH
  }

  /** How the upstream request ended. `Unreported` is any other exception, and cancellation. */
  datatype Outcome = Responded | ConnectFailed | TimedOut | Unreported

  function RecordedOp(outcome: Outcome, now: int): Option<Op> {
    match outcome
    case Responded => Some(Success)
    case ConnectFailed => Some(Failure(now))
    case TimedOut => Some(Failure(now))
    case Unreported => None
  }

  function Apply(bs: Breakers, key: string, op: Op): Breakers {
    bs[key := Step(DEFAULT_POLICY, Lookup(bs, key), op)]
  }

  function AfterAsk(bs: Breakers, podKey: Option<string>, now: int): Breakers {
    if Truthy(podKey) then Apply(bs, podKey.value, Ask(now)) else bs
  }

  predicate Admitted(bs: Breakers, podKey: Option<string>, now: int) {
    Truthy(podKey) ==> Admits(DEFAULT_POLICY, Lookup(bs, podKey.value), now)
  }

  function AfterSettle(bs: Breakers, podKey: Option<string>, outcome: Outcome, now: int): Breakers {
    var op := RecordedOp(outcome, now);
    if Truthy(podKey) && op.Some? then Apply(bs, podKey.value, op.value) else bs
  }

  /** Looking a key up and then stepping its breaker is one `Apply`. */
  lemma LookUpThenStep(bs: Breakers, key: string, op: Op)
    ensures bs[key := Lookup(bs, key)][key := Step(DEFAULT_POLICY, Lookup(bs, key), op)] == Apply(bs, key, op)
  {
  }

  class CircuitBreakerRegistry {
    var breakers: map<string, CircuitBreaker>

    ghost predicate Valid()
      reads this, breakers.Values
    {
      && (forall k :: k in breakers ==> breakers[k].policy == DEFAULT_POLICY)
      && (forall j, k :: j in breakers && k in breakers && j != k ==> breakers[j] != breakers[k])
    }

    ghost function View(): Breakers
      reads this, breakers.Values
    {
      map k | k in breakers :: breakers[k].View()
    }

    constructor ()
      ensures Valid() && View() == map[] && breakers == map[]
    {
      breakers := map[];
    }

    method Get(key: string) returns (breaker: CircuitBreaker)
      requires Valid()
      modifies this
      ensures Valid() && key in breakers && breaker == breakers[key]
      ensures key in old(breakers) ==> breakers == old(breakers)
      ensures key !in old(breakers) ==> fresh(breaker) && breakers == old(breakers)[key := breaker]
      ensures breakers.Values <= old(breakers.Values) + {breaker}
      ensures View() == old(View())[key := Lookup(old(View()), key)]
    {
      if key !in breakers {
        var b := new CircuitBreaker(DEFAULT_POLICY);
        breakers := breakers[key := b];
      }
      breaker := breakers[key];
    }

    method Remove(key: string)
      requires Valid()
      modifies this
      ensures Valid() && View() == old(View()) - {key}
    {
      breakers := breakers - {key};
    }

    /** Changing one breaker object changes the view at its key and nowhere else. */
    lemma OneBreakerChanged(before: Breakers, key: string)
      requires Valid() && key in breakers && before.Keys == breakers.Keys
      requires forall k :: k in breakers && k != key ==> breakers[k].View() == before[k]
      ensures View() == before[key := breakers[key].View()]
    {
    }
  }

  class HttpProxy {
    const registry: CircuitBreakerRegistry

    constructor (registry: CircuitBreakerRegistry)
      ensures this.registry == registry
    {
      this.registry := registry;
    }

    /** The part of a request before it is sent upstream; a refused request is answered with 503. */
    method AskToProceed(podKey: Option<string>, now: int) returns (admitted: bool)
      requires registry.Valid()
      modifies registry, registry.breakers.Values
      ensures registry.Valid() && fresh(registry.breakers.Values - old(registry.breakers.Values))
      ensures registry.View() == AfterAsk(old(registry.View()), podKey, now)
      ensures admitted == Admitted(old(registry.View()), podKey, now)
    {
      hide Step, Admits, Lookup, Apply;
      admitted := true;
      if Truthy(podKey) {
        var breaker := registry.Get(podKey.value);
        ghost var before := registry.View();
        admitted := breaker.CanExecute(now);
        registry.OneBreakerChanged(before, podKey.value);
        LookUpThenStep(old(registry.View()), podKey.value, Ask(now));
      }
    }

    /** The breaker is looked up again when the outcome arrives, not kept from the question. */
    method RecordSuccess(key: string)
      requires registry.Valid()
      modifies registry, registry.breakers.Values
      ensures registry.Valid() && fresh(registry.breakers.Values - old(registry.breakers.Values))
      ensures registry.View() == Apply(old(registry.View()), key, Success)
    {
      hide Step, Lookup, Apply;
      var breaker := registry.Get(key);
      ghost var before := registry.View();
      breaker.RecordSuccess();
      registry.OneBreakerChanged(before, key);
      LookUpThenStep(old(registry.View()), key, Success);
    }

    method RecordFailure(key: string, now: int)
      requires registry.Valid()
      modifies registry, registry.breakers.Values
      ensures registry.Valid() && fresh(registry.breakers.Values - old(registry.breakers.Values))
      ensures registry.View() == Apply(old(registry.View()), key, Failure(now))
    {
      hide Step, Lookup, Apply;
      var breaker := registry.Get(key);
      ghost var before := registry.View();
      breaker.RecordFailure(now);
      registry.OneBreakerChanged(before, key);
      LookUpThenStep(old(registry.View()), key, Failure(now));
    }

    /** The part of an admitted request after the upstream answered, failed or was abandoned. */
    method Settle(podKey: Option<string>, outcome: Outcome, now: int)
      requires registry.Valid()
      modifies registry, registry.breakers.Values
      ensures registry.Valid() && fresh(registry.breakers.Values - old(registry.breakers.Values))
      ensures registry.View() == AfterSettle(old(registry.View()), podKey, outcome, now)
    {
      if Truthy(podKey) {
        match outcome {
          case Responded => RecordSuccess(podKey.value);
          case ConnectFailed => RecordFailure(podKey.value, now);
          case TimedOut => RecordFailure(podKey.value, now);
          case Unreported =>
        }
      }
    }
  }

  // ---------- Concurrent traffic ----------

  /** Any number of requests run at once; `outstanding` holds the key of each admitted, unfinished one. */
  datatype Traffic = Traffic(breakers: Breakers, outstanding: map<nat, Option<string>>)

  datatype Event =
    | Arrive(id: nat, podKey: Option<string>, now: int)
    | Finish(id: nat, outcome: Outcome, now: int)

  predicate Enabled(t: Traffic, e: Event) {
    match e
    case Arrive(id, _, _) => id !in t.outstanding
    case Finish(id, _, _) => id in t.outstanding
  }

  function Next(t: Traffic, e: Event): Traffic
    requires Enabled(t, e)
  {
    match e
    case Arrive(id, podKey, now) =>
      Traffic(AfterAsk(t.breakers, podKey, now),
              if Admitted(t.breakers, podKey, now) then t.outstanding[id := podKey] else t.outstanding)
    case Finish(id, outcome, now) =>
      Traffic(AfterSettle(t.breakers, t.outstanding[id], outcome, now), t.outstanding - {id})
  }

  predicate IsTraffic(t: Traffic, es: seq<Event>)
    decreases |es|
  {
    es == [] || (Enabled(t, es[0]) && IsTraffic(Next(t, es[0]), es[1..]))
  }

  function After(t: Traffic, es: seq<Event>): Traffic
    requires IsTraffic(t, es)
    decreases |es|
  {
    if es == [] then t else After(Next(t, es[0]), es[1..])
  }

  /** The operations that event `e` performs on the breaker of `key`: none, or exactly one. */
  function OpOn(key: string, t: Traffic, e: Event): seq<Op>
    requires Enabled(t, e)
  {
    match e
    case Arrive(_, podKey, now) => if podKey == Some(key) && key != "" then [Ask(now)] else []
    case Finish(id, outcome, now) =>
      var op := RecordedOp(outcome, now);
      if t.outstanding[id] == Some(key) && key != "" && op.Some? then [op.value] else []
  }

  function OpsOn(key: string, t: Traffic, es: seq<Event>): seq<Op>
    requires IsTraffic(t, es)
    decreases |es|
  {
    if es == [] then [] else OpOn(key, t, es[0]) + OpsOn(key, Next(t, es[0]), es[1..])
  }

  /** Whatever the interleaving, the breaker of `key` is that of a single breaker that saw only
      the requests of `key`. */
  lemma {:induction false} RegistryProjection(key: string, t: Traffic, es: seq<Event>)
    requires IsTraffic(t, es)
    ensures Lookup(After(t, es).breakers, key) == Run(DEFAULT_POLICY, Lookup(t.breakers, key), OpsOn(key, t, es))
    decreases |es|
  {
    hide Step, Admits;
    if es == [] {
    } else {
      var t1 := Next(t, es[0]);
      RegistryProjection(key, t1, es[1..]);
      var ops := OpOn(key, t, es[0]);
      RunAppend(DEFAULT_POLICY, Lookup(t.breakers, key), ops, OpsOn(key, t1, es[1..]));
      if ops != [] {
        assert ops[1..] == [];
        var b := Lookup(t.breakers, key);
        assert Run(DEFAULT_POLICY, b, ops) == Step(DEFAULT_POLICY, b, ops[0]);
      }
      assert Lookup(t1.breakers, key) == Run(DEFAULT_POLICY, Lookup(t.breakers, key), ops);
    }
  }

  /** Two interleavings that agree on the operations of one key leave that key's breaker in the
      same state and give its next request the same answer, whatever else they contain. */
  lemma OtherKeysDoNotInterfere(key: string, t: Traffic, es: seq<Event>, u: Traffic, fs: seq<Event>, now: int)
    requires IsTraffic(t, es) && IsTraffic(u, fs)
    requires Lookup(t.breakers, key) == Lookup(u.breakers, key)
    requires OpsOn(key, t, es) == OpsOn(key, u, fs)
    ensures Lookup(After(t, es).breakers, key) == Lookup(After(u, fs).breakers, key)
    ensures Admitted(After(t, es).breakers, Some(key), now) == Admitted(After(u, fs).breakers, Some(key), now)
  {
    RegistryProjection(key, t, es);
    RegistryProjection(key, u, fs);
  }

  // ---------- Which operations those are ----------

  /** The event concerns the breaker of `key`: a request arrives for it, or one of its admitted requests
      gets a response, cannot connect, or times out. */
  predicate Concerns(key: string, t: Traffic, e: Event)
    requires Enabled(t, e)
  {
    match e
    case Arrive(_, podKey, _) => podKey == Some(key)
    case Finish(id, outcome, _) =>
      t.outstanding[id] == Some(key) && (outcome.Responded? || outcome.ConnectFailed? || outcome.TimedOut?)
  }

  /** The events that concern `key`, in order. */
  function Concerning(key: string, t: Traffic, es: seq<Event>): seq<Event>
    requires IsTraffic(t, es)
    decreases |es|
  {
    if es == [] then []
    else (if Concerns(key, t, es[0]) then [es[0]] else []) + Concerning(key, Next(t, es[0]), es[1..])
  }

  /** The operation that stands for an event: a question for an arrival, a success exactly for a
      response, and a failure at that instant exactly for a failed connection or a timeout. */
  predicate StandsFor(op: Op, e: Event) {
    match e
    case Arrive(_, _, now) => op == Ask(now)
    case Finish(_, Responded, _) => op == Success
    case Finish(_, ConnectFailed, now) => op == Failure(now)
    case Finish(_, TimedOut, now) => op == Failure(now)
    case Finish(_, Unreported, _) => false
  }

  /** The breaker of `key` sees one operation for each event that concerns it, and no others. */
  lemma {:induction false} OperationsFollowOutcomes(key: string, t: Traffic, es: seq<Event>)
    requires IsTraffic(t, es) && key != ""
    ensures |OpsOn(key, t, es)| == |Concerning(key, t, es)|
    ensures forall i :: 0 <= i < |OpsOn(key, t, es)| ==> StandsFor(OpsOn(key, t, es)[i], Concerning(key, t, es)[i])
    decreases |es|
  {
    hide Next;
    if es == [] {
    } else {
      OperationsFollowOutcomes(key, Next(t, es[0]), es[1..]);
      assert Concerns(key, t, es[0]) <==> OpOn(key, t, es[0]) != [];
    }
  }

  /** With nothing recorded at first, a request for `key` is admitted exactly if fewer than 5 failures
      were recorded since the last success that counted; or else none was admitted since the latest
      failure and that is at least 30 s ago; or else one to three were. */
  lemma DecisionsFollowOutcomes(key: string, t: Traffic, es: seq<Event>, now: int)
    requires IsTraffic(t, es) && key != "" && key !in t.breakers
    ensures var tally := TallyOf(DEFAULT_POLICY, OpsOn(key, t, es));
            Admitted(After(t, es).breakers, Some(key), now)
            <==> || tally.streak < 5
                 || 1 <= tally.probes <= 3
                 || (tally.probes == 0 && tally.latest.Some? && tally.latest.value != 0
                     && now - tally.latest.value >= 30_000_000)
  {
    RegistryProjection(key, t, es);
    DecisionsRefineTally(DEFAULT_POLICY, OpsOn(key, t, es), now);
    BreakerRefinesTally(DEFAULT_POLICY, OpsOn(key, t, es));
  }

  /** A request without a key is always let through, and neither it nor its outcome touches a breaker. */
  lemma KeylessRequestsBypass(t: Traffic, e: Event)
    requires Enabled(t, e)
    requires match e
             case Arrive(_, podKey, _) => !Truthy(podKey)
             case Finish(id, _, _) => !Truthy(t.outstanding[id])
    ensures Next(t, e).breakers == t.breakers
    ensures e.Arrive? ==> Next(t, e).outstanding == t.outstanding[e.id := e.podKey]
    ensures e.Finish? ==> Next(t, e).outstanding == t.outstanding - {e.id}
  {
  }

  // ---------- Every outcome belongs to an admitted request ----------

  ghost function Pending(outstanding: map<nat, Option<string>>, key: string): set<nat> {
    set id | id in outstanding && outstanding[id] == Some(key)
  }

  function AdmittedCount(key: string, t: Traffic, es: seq<Event>): nat
    requires IsTraffic(t, es)
    decreases |es|
  {
    if es == [] then 0
    else (if es[0].Arrive? && es[0].podKey == Some(key) && Admitted(t.breakers, es[0].podKey, es[0].now) then 1 else 0)
         + AdmittedCount(key, Next(t, es[0]), es[1..])
  }

  /** Outcomes written to the breaker of `key`. */
  function RecordedCount(key: string, t: Traffic, es: seq<Event>): nat
    requires IsTraffic(t, es)
    decreases |es|
  {
    if es == [] then 0
    else (if es[0].Finish? && OpOn(key, t, es[0]) != [] then 1 else 0)
         + RecordedCount(key, Next(t, es[0]), es[1..])
  }

  /** Admitted requests of `key` that ended without telling the breaker. */
  function SilentCount(key: string, t: Traffic, es: seq<Event>): nat
    requires IsTraffic(t, es)
    decreases |es|
  {
    if es == [] then 0
    else (if es[0].Finish? && t.outstanding[es[0].id] == Some(key) && es[0].outcome.Unreported? then 1 else 0)
         + SilentCount(key, Next(t, es[0]), es[1..])
  }

  lemma PendingAfterAdd(outstanding: map<nat, Option<string>>, id: nat, podKey: Option<string>, key: string)
    requires id !in outstanding
    ensures |Pending(outstanding[id := podKey], key)|
            == |Pending(outstanding, key)| + if podKey == Some(key) then 1 else 0
  {
    var before, after := Pending(outstanding, key), Pending(outstanding[id := podKey], key);
    assert after == before + if podKey == Some(key) then {id} else {};
  }

  lemma PendingAfterRemove(outstanding: map<nat, Option<string>>, id: nat, key: string)
    requires id in outstanding
    ensures |Pending(outstanding - {id}, key)|
            == |Pending(outstanding, key)| - if outstanding[id] == Some(key) then 1 else 0
  {
    var before, after := Pending(outstanding, key), Pending(outstanding - {id}, key);
    assert after == before - if outstanding[id] == Some(key) then {id} else {};
  }

  /** Conservation: every admitted request is still pending, recorded one outcome, or ended
      silently. So rejected requests record nothing and no request records twice. */
  lemma {:induction false} OutcomesAreConserved(key: string, t: Traffic, es: seq<Event>)
    requires IsTraffic(t, es) && key != ""
    ensures |Pending(t.outstanding, key)| + AdmittedCount(key, t, es)
            == |Pending(After(t, es).outstanding, key)| + RecordedCount(key, t, es) + SilentCount(key, t, es)
    decreases |es|
  {
    if es == [] {
    } else {
      match es[0] {
        case Arrive(id, podKey, _) => PendingAfterAdd(t.outstanding, id, podKey, key);
        case Finish(id, _, _) => PendingAfterRemove(t.outstanding, id, key);
      }
      OutcomesAreConserved(key, Next(t, es[0]), es[1..]);
    }
  }
}
