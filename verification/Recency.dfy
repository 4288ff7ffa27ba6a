/** On a strictly increasing clock the dictionary of terminals is a least-recently-used list. Holds
    under arbitrary API faults. */
module Recency {
  import opened Basics
  import opened Names
  import opened Base64
  import opened Terminals
  import opened ClusterModel
  import opened Lifecycle
  import opened Runs
  import opened Tracking

  datatype Entry = Entry(user: Hash, stamp: int)

  /** The abstract list: users from least to most recently active. */
  type Recents = seq<Entry>

  /** What can happen to the abstract list. */
  datatype Action =
    | Touch(user: Hash, now: int)
    | DropHead
    | Append(entry: Entry)
    | Expire(now: int)
    | Forget(users: set<Hash>)
    | Rebuild(list: Recents)
    | Skip

  function Without(list: Recents, users: set<Hash>): Recents {
    if list == [] then []
    else Without(list[..|list| - 1], users)
         + if list[|list| - 1].user in users then [] else [list[|list| - 1]]
  }

  /** Drops the longest prefix of entries idle for more than the timeout. */
  function DropIdle(cfg: Settings, list: Recents, now: int): Recents {
    if list != [] && now - list[0].stamp > cfg.idleTimeout * SECOND then DropIdle(cfg, list[1..], now) else list
  }

  function Act(cfg: Settings, list: Recents, a: Action): Recents {
    match a
    case Touch(h, now) => Without(list, {h}) + [Entry(h, now)]
    case DropHead => if list == [] then [] else list[1..]
    case Append(e) => list + [e]
    case Expire(now) => DropIdle(cfg, list, now)
    case Forget(users) => Without(list, users)
    case Rebuild(rebuilt) => rebuilt
    case Skip => list
  }

  /** The users adopted by a reconciling pass, in the order of adoption. */
  function AdoptedList(cfg: Settings, w: World, listed: seq<Pod>, names: seq<Name>, boot: Boot, f: Faults): Recents
    requires |names| == |listed| && |names| <= |boot.clock| && |names| <= |boot.keys|
  {
    if names == [] then []
    else
      var k := |names| - 1;
      var list := AdoptedList(cfg, w, listed[..k], names[..k], boot, f);
      var a := ReconcileFirst(cfg, w, listed[..k], names[..k], boot, f);
      if a.Done? && Truthy(listed[k].labels.user) && listed[k].phase == Phase.Running
         && StoredKey(a.world.cluster, SecretName(listed[k].labels.user.value), boot.keys[k], f).Some?
      then Without(list, {listed[k].labels.user.value}) + [Entry(listed[k].labels.user.value, boot.clock[k])]
      else list
  }

  function RestartList(cfg: Settings, w: World, boot: Boot, f: Faults): Recents
    requires BootFits(cfg, w.cluster, boot)
  {
    if ListPods in f then []
    else
      var v := World(map[], None, None, w.cluster);
      var names := ListedPods(v.cluster, cfg.app, cfg.managedBy, boot.listing);
      ListedFit(v.cluster, cfg.app, cfg.managedBy, boot.listing);
      AdoptedList(cfg, v, Snapshot(v.cluster, names), names, boot, f)
  }

  /** The abstract action that each step of the manager amounts to. */
  ghost function ActionOf(cfg: Settings, w: World, e: Event): Action
    requires Enabled(cfg, w, e)
  {
    match e
    case Ask(r, _) =>
      if r.hash in w.pods then Touch(r.hash, r.now)
      else if |w.pods| >= cfg.maxPods then DropHead else Skip
    case Answer(ready, ip, _) =>
      var t := w.creating.value.terminal;
      if ready && Truthy(ip) then Append(Entry(t.hash, t.lastActiveAt)) else Skip
    case IdleSweep(_, now, _) => Expire(now)
    case HealthSweep(_, _, f) => Forget(set h | h in w.pods && Unhealthy(w, f, h))
    case CrashAndRestart(boot, f) => Rebuild(RestartList(cfg, w, boot, f))
    case Poll => Skip
    case Abandon => Skip
    case PvcSweep(_, _, _) => Skip
    case Environment(_) => Skip
  }

  // ---------- The refinement relation ----------

  ghost predicate Increasing(list: Recents) {
    forall i, j :: 0 <= i < j < |list| ==> list[i].stamp < list[j].stamp
  }

  /** The list holds exactly the tracked users with their activity stamps, oldest first. */
  ghost predicate Refines(pods: map<Hash, TerminalPod>, list: Recents) {
    && Increasing(list)
    && (forall e :: e in list ==> e.user in pods && pods[e.user].lastActiveAt == e.stamp)
    && (forall h :: h in pods ==> Entry(h, pods[h].lastActiveAt) in list)
  }

  /** ... and the terminal being created is more recent than all of them; `clock` is the latest reading. */
  ghost predicate RefinesAt(w: World, list: Recents, clock: int) {
    && Refines(w.pods, list)
    && (forall e :: e in list ==> e.stamp <= clock)
    && (w.creating.Some? ==>
          && w.creating.value.terminal.lastActiveAt <= clock
          && forall e :: e in list ==> e.stamp < w.creating.value.terminal.lastActiveAt)
  }

  /** The clock strictly increases from reading to reading. */
  ghost predicate Ticks(clock: int, e: Event) {
    match e
    case Ask(r, _) => r.now > clock
    case IdleSweep(_, now, _) => now > clock
    case HealthSweep(_, now, _) => now > clock
    case PvcSweep(_, now, _) => now > clock
    case CrashAndRestart(boot, _) =>
      && (forall i :: 0 <= i < |boot.clock| ==> boot.clock[i] > clock)
      && (forall i, j :: 0 <= i < j < |boot.clock| ==> boot.clock[i] < boot.clock[j])
    case _ => true
  }

  function Reading(clock: int, e: Event): int {
    match e
    case Ask(r, _) => r.now
    case IdleSweep(_, now, _) => now
    case HealthSweep(_, now, _) => now
    case PvcSweep(_, now, _) => now
    case CrashAndRestart(boot, _) => if boot.clock == [] then clock else boot.clock[|boot.clock| - 1]
    case _ => clock
  }

  // ---------- List operations ----------

  lemma {:induction false} WithoutMembers(list: Recents, users: set<Hash>)
    ensures forall e :: e in Without(list, users) <==> e in list && e.user !in users
    ensures Increasing(list) ==> Increasing(Without(list, users))
  {
    if list == [] {
    } else {
      var before, last := list[..|list| - 1], list[|list| - 1];
      WithoutMembers(before, users);
      if Increasing(list) {
        forall e | e in Without(before, users) ensures e.stamp < last.stamp {
          assert e in before;
        }
      }
    }
  }

  /** In an increasing list the idle entries are a prefix, so dropping it removes exactly them. */
  lemma {:induction false} DropIdleMembers(cfg: Settings, list: Recents, now: int) returns (k: nat)
    requires Increasing(list)
    ensures k <= |list| && DropIdle(cfg, list, now) == list[k..]
    ensures forall i :: 0 <= i < k ==> now - list[i].stamp > cfg.idleTimeout * SECOND
    ensures forall i :: k <= i < |list| ==> now - list[i].stamp <= cfg.idleTimeout * SECOND
  {
    k := 0;
    if list != [] && now - list[0].stamp > cfg.idleTimeout * SECOND {
      var j := DropIdleMembers(cfg, list[1..], now);
      k := j + 1;
    }
  }

  lemma NothingBeforeHead(list: Recents, i: nat)
    requires Increasing(list) && i < |list| && list[i].stamp <= list[0].stamp
    ensures i == 0
  {
  }

  /** The victim of an eviction is exactly the head of the list. */
  lemma OldestIsHead(pods: map<Hash, TerminalPod>, list: Recents, order: seq<Hash>)
    requires Refines(pods, list) && Enumerates(order, pods.Keys) && list != []
    ensures Oldest(pods, order) == Some(list[0].user)
  {
    assert list[0] in list;
    assert list[0].user in order;
    var v := Oldest(pods, order).value;
    var e := Entry(v, pods[v].lastActiveAt);
    assert e in list;
    var i :| 0 <= i < |list| && list[i] == e;
    NothingBeforeHead(list, i);
  }

  lemma RefinesSize(pods: map<Hash, TerminalPod>, list: Recents)
    requires Refines(pods, list)
    ensures pods == map[] <==> list == []
  {
    if list != [] {
      assert list[0] in list;
    }
  }

  // ---------- One step ----------

  lemma TouchStep(w: World, list: Recents, h: Hash, now: int, clock: int, v: World)
    requires RefinesAt(w, list, clock) && h in w.pods && now > clock
    requires v.creating.None? && v.pods == w.pods[h := w.pods[h].(lastActiveAt := now)]
    ensures RefinesAt(v, Without(list, {h}) + [Entry(h, now)], now)
  {
    WithoutMembers(list, {h});
    var after := Without(list, {h}) + [Entry(h, now)];
    forall g | g in v.pods ensures Entry(g, v.pods[g].lastActiveAt) in after {
      if g != h {
        assert Entry(g, w.pods[g].lastActiveAt) in Without(list, {h});
      }
    }
    forall i, j | 0 <= i < j < |after| ensures after[i].stamp < after[j].stamp {
      if j == |after| - 1 {
        assert after[i] in Without(list, {h});
      }
    }
  }

  lemma DropHeadStep(pods: map<Hash, TerminalPod>, list: Recents)
    requires Refines(pods, list) && list != []
    ensures Refines(pods - {list[0].user}, list[1..])
  {
    var after := pods - {list[0].user};
    forall e | e in list[1..] ensures e.user in after && after[e.user].lastActiveAt == e.stamp {
      var i :| 0 <= i < |list[1..]| && list[1..][i] == e;
      assert list[0].stamp < list[i + 1].stamp;
      assert list[0] in list && e in list;
    }
    forall h | h in after ensures Entry(h, after[h].lastActiveAt) in list[1..] {
      assert Entry(h, pods[h].lastActiveAt) in list;
    }
  }

  lemma MissStep(w: World, list: Recents, clock: int, now: int, v: World, full: bool, oldest: Option<Hash>)
    requires RefinesAt(w, list, clock) && now > clock
    requires full && list != [] ==> oldest == Some(list[0].user)
    requires v.pods == if full && list != [] then w.pods - {list[0].user} else w.pods
    requires v.creating.Some? ==> v.creating.value.terminal.lastActiveAt == now
    ensures RefinesAt(v, if full && list != [] then list[1..] else list, now)
  {
    if full && list != [] {
      DropHeadStep(w.pods, list);
    }
  }

  lemma AskStep(cfg: Settings, w: World, list: Recents, clock: int, r: Request, f: Faults)
    requires Tracked(w) && RefinesAt(w, list, clock) && Enabled(cfg, w, Ask(r, f)) && r.now > clock
    ensures RefinesAt(GetOrCreate(cfg, w, r, f).world, Act(cfg, list, ActionOf(cfg, w, Ask(r, f))), r.now)
  {
    hide Tracked, GetOrCreate, MakeRoom, Refines, Enumerates;
    var v := GetOrCreate(cfg, w, r, f).world;
    AskShape(cfg, w, r, f);
    if r.hash in w.pods {
      TouchStep(w, list, r.hash, r.now, clock, v);
    } else {
      MakeRoomShape(cfg, w, r.order, r.now, f);
      RefinesSize(w.pods, list);
      if list != [] {
        OldestIsHead(w.pods, list, r.order);
      }
      MissStep(w, list, clock, r.now, v, |w.pods| >= cfg.maxPods, Oldest(w.pods, r.order));
    }
  }

  lemma ForgetStep(pods: map<Hash, TerminalPod>, list: Recents, users: set<Hash>, after: map<Hash, TerminalPod>)
    requires Refines(pods, list)
    requires forall h :: h in after <==> h in pods && h !in users
    requires forall h :: h in after ==> after[h].lastActiveAt == pods[h].lastActiveAt
    ensures Refines(after, Without(list, users))
    ensures forall e :: e in Without(list, users) ==> e in list
  {
    WithoutMembers(list, users);
    forall h | h in after ensures Entry(h, after[h].lastActiveAt) in Without(list, users) {
      assert Entry(h, pods[h].lastActiveAt) in list;
    }
  }

  lemma ExpireStep(cfg: Settings, pods: map<Hash, TerminalPod>, list: Recents, now: int, after: map<Hash, TerminalPod>)
    requires Refines(pods, list)
    requires after == map h | h in pods && !Idle(cfg, pods, now, h) :: pods[h]
    ensures Refines(after, DropIdle(cfg, list, now))
    ensures forall e :: e in DropIdle(cfg, list, now) ==> e in list
  {
    var k := DropIdleMembers(cfg, list, now);
    var rest := list[k..];
    forall e | e in rest ensures e in list && e.user in after && after[e.user].lastActiveAt == e.stamp {
      var i :| 0 <= i < |rest| && rest[i] == e;
      assert list[k + i] == e;
      assert e in list;
    }
    forall h | h in after ensures Entry(h, after[h].lastActiveAt) in rest {
      var e := Entry(h, pods[h].lastActiveAt);
      assert e in list;
      var i :| 0 <= i < |list| && list[i] == e;
      assert !Idle(cfg, pods, now, h);
      assert i >= k;
      assert rest[i - k] == e;
    }
  }

  /** One reconciled pod either adopts its user at the clock reading `now`, or adopts nobody. */
  lemma ReconcileOneAdopts(cfg: Settings, w: World, n: Name, p: Pod, now: int, key: ApiKey, f: Faults)
    ensures var a := ReconcileOne(cfg, w, n, p, now, key, f);
            a.world.creating == w.creating &&
            if Truthy(p.labels.user) && p.phase == Phase.Running
               && StoredKey(w.cluster, SecretName(p.labels.user.value), key, f).Some?
            then var h := p.labels.user.value;
                 && a.Done? && h in a.world.pods && a.world.pods[h].lastActiveAt == now
                 && a.world.pods == w.pods[h := a.world.pods[h]]
            else a.world.pods == w.pods
  {
  }

  lemma {:induction false} AdoptedListRefines(
    cfg: Settings, w: World, listed: seq<Pod>, names: seq<Name>, boot: Boot, f: Faults, clock: int)
    requires |names| == |listed| && |names| <= |boot.clock| && |names| <= |boot.keys|
    requires w.pods == map[] && w.creating.None? && Ticks(clock, CrashAndRestart(boot, f))
    ensures var v := ReconcileFirst(cfg, w, listed, names, boot, f).world;
            RefinesAt(v, AdoptedList(cfg, w, listed, names, boot, f),
                      if names == [] then clock else boot.clock[|names| - 1])
            && v.creating.None?
  {
    hide ReconcileOne, Without, StoredKey, Refines;
    if names == [] {
      InitialListRefines(w);
    } else {
      var k := |names| - 1;
      AdoptedListRefines(cfg, w, listed[..k], names[..k], boot, f, clock);
      var before := AdoptedList(cfg, w, listed[..k], names[..k], boot, f);
      var a := ReconcileFirst(cfg, w, listed[..k], names[..k], boot, f);
      assert k > 0 ==> boot.clock[k - 1] < boot.clock[k];
      if a.Done? {
        ReconcileOneAdopts(cfg, a.world, names[k], listed[k], boot.clock[k], boot.keys[k], f);
        var b := ReconcileOne(cfg, a.world, names[k], listed[k], boot.clock[k], boot.keys[k], f);
        if AdoptedList(cfg, w, listed, names, boot, f) != before {
          AdoptStep(a.world.pods, before, listed[k].labels.user.value, boot.clock[k], b.world.pods);
        } else if b.world.pods != a.world.pods {
          AdoptStep(a.world.pods, before, listed[k].labels.user.value, boot.clock[k], b.world.pods);
        }
      }
    }
  }

  lemma InitialListRefines(w: World)
    requires w.pods == map[]
    ensures Refines(w.pods, [])
  {
  }

  lemma AdoptStep(pods: map<Hash, TerminalPod>, list: Recents, h: Hash, now: int, after: map<Hash, TerminalPod>)
    requires Refines(pods, list) && forall e :: e in list ==> e.stamp < now
    requires h in after && after[h].lastActiveAt == now && after == pods[h := after[h]]
    ensures Refines(after, Without(list, {h}) + [Entry(h, now)])
    ensures forall e :: e in Without(list, {h}) + [Entry(h, now)] ==> e.stamp <= now
  {
    WithoutMembers(list, {h});
    var r := Without(list, {h}) + [Entry(h, now)];
    forall g | g in after ensures Entry(g, after[g].lastActiveAt) in r {
      if g != h {
        assert Entry(g, pods[g].lastActiveAt) in Without(list, {h});
      }
    }
    forall i, j | 0 <= i < j < |r| ensures r[i].stamp < r[j].stamp {
      if j == |r| - 1 {
        assert r[i] in Without(list, {h});
      }
    }
  }

  lemma RestartStep(cfg: Settings, w: World, boot: Boot, f: Faults, clock: int)
    requires BootFits(cfg, w.cluster, boot) && Ticks(clock, CrashAndRestart(boot, f))
    ensures RefinesAt(Restart(cfg, w, boot, f), RestartList(cfg, w, boot, f), Reading(clock, CrashAndRestart(boot, f)))
  {
    hide AdoptedList, ReconcileFirst, Refines, ListedPods;
    if ListPods in f {
      assert Refines(map[], []) by { InitialListRefines(World(map[], None, None, w.cluster)); }
    } else {
      var v := World(map[], None, None, w.cluster);
      var names := ListedPods(v.cluster, cfg.app, cfg.managedBy, boot.listing);
      ListedFit(v.cluster, cfg.app, cfg.managedBy, boot.listing);
      AdoptedListRefines(cfg, v, Snapshot(v.cluster, names), names, boot, f, clock);
      if names != [] && |names| < |boot.clock| {
        assert boot.clock[|names| - 1] < boot.clock[|boot.clock| - 1];
      }
    }
  }

  lemma IdleStep(cfg: Settings, w: World, order: seq<Hash>, now: int, f: Faults, list: Recents, clock: int)
    requires RefinesAt(w, list, clock) && Enumerates(order, w.pods.Keys) && now > clock
    ensures RefinesAt(CleanupIdle(cfg, w, order, now, f), DropIdle(cfg, list, now), now)
  {
    hide Refines, DropIdle, Idle;
    DropAllShape(cfg, w, IdleAmong(cfg, w.pods, now, order), now, f);
    IdleAmongMembers(cfg, w.pods, now, order);
    IdleIsInPods(cfg, w.pods, now, order);
    ExpireStep(cfg, w.pods, list, now, CleanupIdle(cfg, w, order, now, f).pods);
  }

  lemma IdleIsInPods(cfg: Settings, pods: map<Hash, TerminalPod>, now: int, order: seq<Hash>)
    requires Enumerates(order, pods.Keys)
    ensures forall h :: Idle(cfg, pods, now, h) ==> h in order
  {
  }

  lemma HealthStep(cfg: Settings, w: World, order: seq<Hash>, now: int, f: Faults, list: Recents, clock: int)
    requires RefinesAt(w, list, clock) && Enumerates(order, w.pods.Keys) && now > clock
    ensures RefinesAt(CheckHealth(cfg, w, order, now, f), Without(list, set h | h in w.pods && Unhealthy(w, f, h)), now)
  {
    hide Refines, Without, Unhealthy;
    DropAllShape(cfg, RefreshAll(w, f), UnhealthyAmong(w, f, order), now, f);
    UnhealthyAmongMembers(w, f, order);
    ForgetStep(w.pods, list, (set h | h in w.pods && Unhealthy(w, f, h)), CheckHealth(cfg, w, order, now, f).pods);
  }

  /** A step that leaves the terminals and the creation alone, or ends the creation. */
  lemma QuietStep(w: World, v: World, list: Recents, clock: int, reading: int)
    requires RefinesAt(w, list, clock) && reading >= clock && v.pods == w.pods
    requires v.creating.Some? ==> w.creating.Some? && v.creating.value.terminal == w.creating.value.terminal
    ensures RefinesAt(v, list, reading)
  {
  }

  lemma RecencyStep(cfg: Settings, w: World, e: Event, list: Recents, clock: int)
    requires Tracked(w) && RefinesAt(w, list, clock) && Enabled(cfg, w, e) && Ticks(clock, e)
    ensures RefinesAt(Next(cfg, w, e), Act(cfg, list, ActionOf(cfg, w, e)), Reading(clock, e))
  {
    hide RefinesAt, Tracked, GetOrCreate, CleanupIdle, CheckHealth, Restart, RestartList;
    hide DropIdle, Without, Unhealthy, Enumerates;
    match e
    case Ask(r, f) => AskStep(cfg, w, list, clock, r, f);
    case Poll => QuietStep(w, Next(cfg, w, e), list, clock, clock);
    case Answer(_, _, _) => AppendStep(cfg, w, e, list, clock);
    case Abandon => QuietStep(w, Next(cfg, w, e), list, clock, clock);
    case IdleSweep(order, now, f) => IdleStep(cfg, w, order, now, f, list, clock);
    case HealthSweep(order, now, f) => HealthStep(cfg, w, order, now, f, list, clock);
    case PvcSweep(_, now, _) => QuietStep(w, Next(cfg, w, e), list, clock, now);
    case Environment(_) => QuietStep(w, Next(cfg, w, e), list, clock, clock);
    case CrashAndRestart(boot, f) => RestartStep(cfg, w, boot, f, clock);
  }

  /** A finished creation lands at the back, whatever sweeps ran while it waited. */
  lemma AppendStep(cfg: Settings, w: World, e: Event, list: Recents, clock: int)
    requires Tracked(w) && RefinesAt(w, list, clock) && Enabled(cfg, w, e) && e.Answer?
    ensures RefinesAt(Next(cfg, w, e), Act(cfg, list, ActionOf(cfg, w, e)), clock)
  {
    hide Refines;
    var v := Next(cfg, w, e);
    if e.ready && Truthy(e.ip) {
      var t := w.creating.value.terminal;
      assert v.pods == w.pods[t.hash := v.pods[t.hash]] && v.pods[t.hash].lastActiveAt == t.lastActiveAt;
      AppendRefines(w.pods, list, Entry(t.hash, t.lastActiveAt), v.pods);
    } else {
      QuietStep(w, v, list, clock, clock);
    }
  }

  lemma AppendRefines(pods: map<Hash, TerminalPod>, list: Recents, entry: Entry, after: map<Hash, TerminalPod>)
    requires Refines(pods, list) && entry.user !in pods && forall e :: e in list ==> e.stamp < entry.stamp
    requires entry.user in after && after[entry.user].lastActiveAt == entry.stamp
    requires after == pods[entry.user := after[entry.user]]
    ensures Refines(after, list + [entry])
  {
    forall g | g in after ensures Entry(g, after[g].lastActiveAt) in list + [entry] {
      if g != entry.user {
        assert Entry(g, pods[g].lastActiveAt) in list;
      }
    }
    forall i | 0 <= i < |list| ensures list[i].stamp < entry.stamp {
      assert list[i] in list;
    }
  }

  // ---------- Whole runs ----------

  /** The abstract list after the first `i` events. */
  ghost function RecentsAfter(cfg: Settings, ws: seq<World>, es: seq<Event>, i: nat): Recents
    requires IsRun(cfg, ws, es) && i < |ws|
  {
    if i == 0 then [] else Act(cfg, RecentsAfter(cfg, ws, es, i - 1), ActionOf(cfg, ws[i - 1], es[i - 1]))
  }

  function ClockAfter(start: int, es: seq<Event>, i: nat): int
    requires i <= |es|
  {
    if i == 0 then start else Reading(ClockAfter(start, es, i - 1), es[i - 1])
  }

  lemma InitialRefines(w: World, start: int)
    requires Initial(w)
    ensures RefinesAt(w, [], start)
  {
  }

  /** In every run on a strictly increasing clock, whatever the API does, the dictionary refines the
      recency list: a hit moves the user to the back, a miss on a full dictionary drops exactly the
      head, an idle sweep drops exactly the idle prefix, and a finished creation is appended. */
  lemma {:induction false} DictionaryRefinesRecencyList(
    cfg: Settings, ws: seq<World>, es: seq<Event>, start: int, i: nat)
    requires IsRun(cfg, ws, es) && Initial(ws[0]) && i < |ws|
    requires forall j :: 0 <= j < |es| ==> Ticks(ClockAfter(start, es, j), es[j])
    ensures RefinesAt(ws[i], RecentsAfter(cfg, ws, es, i), ClockAfter(start, es, i))
    decreases i
  {
    hide RefinesAt, Next, Enabled, Act, ActionOf, Tracked, Ticks, Reading;
    if i == 0 {
      InitialRefines(ws[0], start);
    } else {
      DictionaryRefinesRecencyList(cfg, ws, es, start, i - 1);
      TrackedMeansRunning(cfg, ws, es);
      assert Ticks(ClockAfter(start, es, i - 1), es[i - 1]);
      assert Enabled(cfg, ws[i - 1], es[i - 1]) && ws[i - 1 + 1] == Next(cfg, ws[i - 1], es[i - 1]);
      RecencyStep(cfg, ws[i - 1], es[i - 1], RecentsAfter(cfg, ws, es, i - 1), ClockAfter(start, es, i - 1));
    }
  }
}
