/** Retention of per-user claims over whole runs (per-user storage, claims retained) that are fault-free
    except that waits may be cut off. */
module Retention {
  import opened Basics
  import opened Names
  import opened Base64
  import opened Terminals
  import opened ClusterModel
  import opened Storage
  import opened Lifecycle
  import opened Runs
  import opened Tracking
  import opened Agreement
  import opened Recovery
  import opened Interruptions

  /** For each user, the later of the last `get_or_create` and the last time the manager deleted the
      user's terminal (eviction, idle sweep or health sweep). */
  type Ledger = map<Hash, int>

  ghost function Seen(ledger: Ledger, users: set<Hash>, now: int): Ledger {
    ledger + map h | h in users :: now
  }

  /** The user who loses the terminal to make room for another one, if anybody. */
  function Evicted(cfg: Settings, w: World, order: seq<Hash>): set<Hash> {
    if |w.pods| >= cfg.maxPods && Oldest(w.pods, order).Some? then {Oldest(w.pods, order).value} else {}
  }

  /** The users whose terminals a step deletes through `_delete_pod`. */
  ghost function Deleted(cfg: Settings, w: World, e: Event): set<Hash>
    requires Enabled(cfg, w, e)
  {
    match e
    case Ask(r, _) =>
      if r.hash in w.pods then {} else Evicted(cfg, w, r.order)
    case IdleSweep(_, now, _) => set h | h in w.pods && Idle(cfg, w.pods, now, h)
    case HealthSweep(_, _, f) => set h | h in w.pods && Unhealthy(w, f, h)
    case _ => {}
  }

  ghost function LedgerStep(cfg: Settings, ledger: Ledger, w: World, e: Event): Ledger
    requires Enabled(cfg, w, e)
  {
    match e
    case Ask(r, _) => Seen(ledger, Deleted(cfg, w, e) + {r.hash}, r.now)
    case IdleSweep(_, now, _) => Seen(ledger, Deleted(cfg, w, e), now)
    case HealthSweep(_, now, _) => Seen(ledger, Deleted(cfg, w, e), now)
    case _ => ledger
  }

  /** The claims of users carry the labels this proxy gives them. */
  ghost predicate Labelled(c: Cluster) {
    forall h :: UserPvcName(h) in c.pvcs ==>
      c.pvcs[UserPvcName(h)].kind == UserClaim && c.pvcs[UserPvcName(h)].user == Some(h)
  }

  /** Every existing claim of a user in the ledger is stamped with the ledger's time. */
  ghost predicate Stamped(c: Cluster, ledger: Ledger) {
    forall h :: h in ledger && UserPvcName(h) in c.pvcs ==> c.pvcs[UserPvcName(h)].lastActive == Stamp(ledger[h])
  }

  /** `d` differs from `c` in claims only by stamping those of `users` with `now`. */
  ghost predicate Restamped(c: Cluster, d: Cluster, users: set<Hash>, now: int) {
    forall h ::
      && (UserPvcName(h) in d.pvcs <==> UserPvcName(h) in c.pvcs)
      && (UserPvcName(h) in d.pvcs && UserPvcName(h) in c.pvcs ==>
            var p := c.pvcs[UserPvcName(h)];
            d.pvcs[UserPvcName(h)] == if h in users then p.(lastActive := Stamp(now)) else p)
  }

  lemma RestampedIsStamped(c: Cluster, d: Cluster, users: set<Hash>, now: int, ledger: Ledger)
    requires Labelled(c) && Stamped(c, ledger) && Restamped(c, d, users, now)
    ensures Labelled(d) && Stamped(d, Seen(ledger, users, now))
  {
  }

  ghost predicate Retains(cfg: Settings) {
    cfg.mode == PerUser && cfg.retainPvc
  }

  // ---------- What each operation does to the claims ----------

  lemma DropRestamps(cfg: Settings, w: World, h: Hash, now: int)
    requires Retains(cfg) && h in w.pods && NamedFor(cfg, w.pods[h], h)
    ensures Restamped(w.cluster, Drop(cfg, w, h, now, NO_FAULTS).cluster, {h}, now)
  {
    var t := w.pods[h];
    var d := Drop(cfg, w, h, now, NO_FAULTS).cluster;
    assert d.pvcs == TouchPvc(w.cluster, UserPvcName(h), now, NO_FAULTS).pvcs;
  }

  lemma RestampsCompose(b: Cluster, c: Cluster, d: Cluster, s: set<Hash>, t: set<Hash>, now: int)
    requires Restamped(b, c, s, now) && Restamped(c, d, t, now)
    ensures Restamped(b, d, s + t, now)
  {
  }

  lemma NothingRestamped(c: Cluster, now: int)
    ensures Restamped(c, c, {}, now)
  {
  }

  lemma TrackedIsNamed(cfg: Settings, w: World, h: Hash)
    requires Loose(cfg, w) && h in w.pods
    ensures NamedFor(cfg, w.pods[h], h)
  {
    assert Live(w, h);
  }

  lemma {:induction false} DropAllRestamps(cfg: Settings, w: World, hs: seq<Hash>, now: int)
    requires Retains(cfg) && Loose(cfg, w) && forall h :: h in hs ==> h in w.pods
    requires NoDuplicates(hs)
    ensures Restamped(w.cluster, DropAll(cfg, w, hs, now, NO_FAULTS).cluster, (set h | h in hs), now)
  {
    hide Restamped, Loose, Drop;
    if hs == [] {
      NothingRestamped(w.cluster, now);
      assert (set h | h in hs) == {};
    } else {
      var before, last := hs[..|hs| - 1], hs[|hs| - 1];
      assert last !in before;
      DropAllRestamps(cfg, w, before, now);
      DropAllShape(cfg, w, before, now, NO_FAULTS);
      DropAllStaysLoose(cfg, w, before, now, "");
      var v := DropAll(cfg, w, before, now, NO_FAULTS);
      TrackedIsNamed(cfg, v, last);
      DropRestamps(cfg, v, last, now);
      var d := DropAll(cfg, w, hs, now, NO_FAULTS).cluster;
      RestampsCompose(w.cluster, v.cluster, d, (set h | h in before), {last}, now);
      assert (set h | h in hs) == (set h | h in before) + {last};
    }
  }

  lemma {:induction false} IdleAmongDistinct(cfg: Settings, pods: map<Hash, TerminalPod>, now: int, order: seq<Hash>)
    requires NoDuplicates(order)
    ensures NoDuplicates(IdleAmong(cfg, pods, now, order))
  {
    if order == [] {
    } else {
      IdleAmongDistinct(cfg, pods, now, order[..|order| - 1]);
      IdleAmongMembers(cfg, pods, now, order[..|order| - 1]);
      assert order[|order| - 1] !in order[..|order| - 1];
    }
  }

  lemma {:induction false} UnhealthyAmongDistinct(w: World, f: Faults, order: seq<Hash>)
    requires NoDuplicates(order)
    ensures NoDuplicates(UnhealthyAmong(w, f, order))
  {
    if order == [] {
    } else {
      UnhealthyAmongDistinct(w, f, order[..|order| - 1]);
      UnhealthyAmongMembers(w, f, order[..|order| - 1]);
      assert order[|order| - 1] !in order[..|order| - 1];
    }
  }

  lemma PreparedCluster(cfg: Settings, w: World, t: TerminalPod, h: Hash, listing: seq<Name>, now: int)
    requires cfg.mode == PerUser && t.pvcName == Some(UserPvcName(h)) && t.hash == h
    ensures Some(PrepareStorage(cfg, w, t, listing, now, NO_FAULTS).world.cluster)
            == CreateUserPvc(cfg, w.cluster, UserPvcName(h), h, now, NO_FAULTS)
  {
  }

  lemma CreateStampsClaim(cfg: Settings, c: Cluster, h: Hash, now: int, ledger: Ledger)
    requires cfg.mode == PerUser && Labelled(c) && Stamped(c, ledger)
    ensures var d := CreateUserPvc(cfg, c, UserPvcName(h), h, now, NO_FAULTS);
            d.Some? && Labelled(d.value) && Stamped(d.value, Seen(ledger, {h}, now))
  {
  }

  lemma SameClaims(c: Cluster, d: Cluster, ledger: Ledger)
    requires Labelled(c) && Stamped(c, ledger) && d.pvcs == c.pvcs
    ensures Labelled(d) && Stamped(d, ledger)
  {
  }

  /** A creation stamps the user's claim, making it if necessary. */
  lemma StartStampsClaim(
    cfg: Settings, w: World, userId: string, h: Hash, key: ApiKey, listing: seq<Name>, now: int, ledger: Ledger)
    requires Retains(cfg) && Labelled(w.cluster) && Stamped(w.cluster, ledger)
    ensures var d := StartCreation(cfg, w, Create(cfg, userId, h, key, now), listing, now, NO_FAULTS).world.cluster;
            Labelled(d) && Stamped(d, Seen(ledger, {h}, now))
  {
    hide Labelled, Stamped, PrepareStorage, StartCreation, CreateUserPvc;
    var t := Create(cfg, userId, h, key, now);
    PreparedCluster(cfg, w, t, h, listing, now);
    CreateStampsClaim(cfg, w.cluster, h, now, ledger);
    StartKeepsClaims(cfg, w, t, listing, now);
    SameClaims(PrepareStorage(cfg, w, t, listing, now, NO_FAULTS).world.cluster,
               StartCreation(cfg, w, t, listing, now, NO_FAULTS).world.cluster, Seen(ledger, {h}, now));
  }

  lemma HitStampsClaim(cfg: Settings, w: World, h: Hash, now: int, ledger: Ledger)
    requires Retains(cfg) && Loose(cfg, w) && h in w.pods
    requires Labelled(w.cluster) && Stamped(w.cluster, ledger)
    ensures var d := Touched(cfg, w, h, now, NO_FAULTS).cluster;
            Labelled(d) && Stamped(d, Seen(ledger, {h}, now))
  {
    assert Live(w, h);
    var d := Touched(cfg, w, h, now, NO_FAULTS).cluster;
    assert d == TouchPvc(w.cluster, UserPvcName(h), now, NO_FAULTS);
    RestampedIsStamped(w.cluster, d, {h}, now, ledger);
  }

  /** Making room stamps the claim of the evicted user. */
  lemma MakeRoomStampsClaim(cfg: Settings, w: World, order: seq<Hash>, now: int, ledger: Ledger)
    requires Retains(cfg) && Loose(cfg, w)
    requires Labelled(w.cluster) && Stamped(w.cluster, ledger)
    ensures var d := MakeRoom(cfg, w, order, now, NO_FAULTS).cluster;
            Labelled(d) && Stamped(d, Seen(ledger, Evicted(cfg, w, order), now))
  {
    hide Loose, Labelled, Stamped, Restamped, Drop;
    if |w.pods| >= cfg.maxPods && Oldest(w.pods, order).Some? {
      var h := Oldest(w.pods, order).value;
      TrackedIsNamed(cfg, w, h);
      DropRestamps(cfg, w, h, now);
      RestampedIsStamped(w.cluster, MakeRoom(cfg, w, order, now, NO_FAULTS).cluster, {h}, now, ledger);
    } else {
      assert Seen(ledger, {}, now) == ledger;
    }
  }

  lemma SeenTwice(ledger: Ledger, s: set<Hash>, t: set<Hash>, now: int)
    ensures Seen(Seen(ledger, s, now), t, now) == Seen(ledger, s + t, now)
  {
  }

  lemma AskStampsClaims(cfg: Settings, w: World, r: Request, ledger: Ledger)
    requires Retains(cfg) && Loose(cfg, w) && Enabled(cfg, w, Ask(r, NO_FAULTS))
    requires Labelled(w.cluster) && Stamped(w.cluster, ledger)
    ensures var d := GetOrCreate(cfg, w, r, NO_FAULTS).world.cluster;
            Labelled(d) && Stamped(d, LedgerStep(cfg, ledger, w, Ask(r, NO_FAULTS)))
  {
    hide Labelled, Stamped, Touched, StartCreation, MakeRoom, Seen;
    var gone := Deleted(cfg, w, Ask(r, NO_FAULTS));
    if r.hash in w.pods {
      HitStampsClaim(cfg, w, r.hash, r.now, ledger);
      assert gone + {r.hash} == {r.hash};
    } else {
      MakeRoomStampsClaim(cfg, w, r.order, r.now, ledger);
      var v := MakeRoom(cfg, w, r.order, r.now, NO_FAULTS);
      StartStampsClaim(cfg, v, r.userId, r.hash, r.key, r.listing, r.now, Seen(ledger, gone, r.now));
      SeenTwice(ledger, gone, {r.hash}, r.now);
    }
  }

  // ---------- The invariant over runs ----------

  ghost predicate Retained(w: World, ledger: Ledger) {
    && Labelled(w.cluster) && Stamped(w.cluster, ledger)
    && (w.creating.Some? ==>
          var t := w.creating.value.terminal;
          t.hash in ledger && ledger[t.hash] == t.lastActiveAt)
  }

  lemma IdleSweepKeepsRetained(cfg: Settings, w: World, order: seq<Hash>, now: int, ledger: Ledger)
    requires Retains(cfg) && Loose(cfg, w) && Enumerates(order, w.pods.Keys) && Retained(w, ledger)
    ensures Retained(CleanupIdle(cfg, w, order, now, NO_FAULTS),
                     Seen(ledger, (set h | h in w.pods && Idle(cfg, w.pods, now, h)), now))
  {
    hide Loose, Restamped, Labelled, Stamped, Idle, DropAll;
    LooseIsTracked(cfg, w);
    var hs := IdleAmong(cfg, w.pods, now, order);
    var gone := set h | h in hs;
    IdleAmongMembers(cfg, w.pods, now, order);
    IdleAmongDistinct(cfg, w.pods, now, order);
    DropAllShape(cfg, w, hs, now, NO_FAULTS);
    DropAllRestamps(cfg, w, hs, now);
    RestampedIsStamped(w.cluster, DropAll(cfg, w, hs, now, NO_FAULTS).cluster, gone, now, ledger);
    assert gone == set h | h in w.pods && Idle(cfg, w.pods, now, h);
  }

  lemma HealthSweepKeepsRetained(cfg: Settings, w: World, order: seq<Hash>, now: int, ledger: Ledger)
    requires Retains(cfg) && Loose(cfg, w) && Enumerates(order, w.pods.Keys) && Retained(w, ledger)
    ensures Retained(CheckHealth(cfg, w, order, now, NO_FAULTS),
                     Seen(ledger, (set h | h in w.pods && Unhealthy(w, NO_FAULTS, h)), now))
  {
    hide Loose, Restamped, Labelled, Stamped, Unhealthy, DropAll, Refreshed;
    LooseIsTracked(cfg, w);
    var hs := UnhealthyAmong(w, NO_FAULTS, order);
    var gone := set h | h in hs;
    var v := RefreshAll(w, NO_FAULTS);
    UnhealthyAmongMembers(w, NO_FAULTS, order);
    UnhealthyAmongDistinct(w, NO_FAULTS, order);
    DropAllShape(cfg, v, hs, now, NO_FAULTS);
    RefreshStaysLoose(cfg, w, "");
    DropAllRestamps(cfg, v, hs, now);
    RestampedIsStamped(w.cluster, DropAll(cfg, v, hs, now, NO_FAULTS).cluster, gone, now, ledger);
    assert gone == set h | h in w.pods && Unhealthy(w, NO_FAULTS, h);
  }

  lemma InitialIsRetained(w: World)
    requires Initial(w) && Labelled(w.cluster)
    ensures Retained(w, map[])
  {
  }

  lemma RetainedStep(cfg: Settings, w: World, e: Event, ledger: Ledger)
    requires Retains(cfg) && Loose(cfg, w) && Calm(cfg, w, e) && Retained(w, ledger)
    ensures Retained(Next(cfg, w, e), LedgerStep(cfg, ledger, w, e))
  {
    match e
    case Ask(r, f) =>
      AskStampsClaims(cfg, w, r, ledger);
      AskShape(cfg, w, r, f);
    case Poll =>
    case Answer(_, _, _) =>
    case Abandon =>
    case IdleSweep(order, now, _) => IdleSweepKeepsRetained(cfg, w, order, now, ledger);
    case HealthSweep(order, now, _) => HealthSweepKeepsRetained(cfg, w, order, now, ledger);
    case PvcSweep(_, _, _) =>
    case Environment(_) =>
    case CrashAndRestart(boot, _) =>
      RestartEffect(cfg, w, boot);
  }

  ghost function LedgerAfter(cfg: Settings, ws: seq<World>, es: seq<Event>, i: nat): Ledger
    requires IsRun(cfg, ws, es) && i < |ws|
  {
    if i == 0 then map[] else LedgerStep(cfg, LedgerAfter(cfg, ws, es, i - 1), ws[i - 1], es[i - 1])
  }

  lemma {:induction false} ClaimsFollowLedger(cfg: Settings, ws: seq<World>, es: seq<Event>, i: nat)
    requires Retains(cfg) && IsCalmRun(cfg, ws, es) && Loose(cfg, ws[0])
    requires Initial(ws[0]) && Labelled(ws[0].cluster) && i < |ws|
    ensures Loose(cfg, ws[i]) && Retained(ws[i], LedgerAfter(cfg, ws, es, i))
    decreases i
  {
    hide Loose, Retained, Next, Enabled, LedgerStep, Labelled;
    CalmRunStaysLoose(cfg, ws, es, i);
    if i == 0 {
      InitialIsRetained(ws[0]);
    } else {
      ClaimsFollowLedger(cfg, ws, es, i - 1);
      assert Calm(cfg, ws[i - 1], es[i - 1]) && ws[i - 1 + 1] == Next(cfg, ws[i - 1], es[i - 1]);
      RetainedStep(cfg, ws[i - 1], es[i - 1], LedgerAfter(cfg, ws, es, i - 1));
    }
  }

  /** One sweep, in a state whose claims follow the ledger. */
  lemma SweepFollowsLedger(cfg: Settings, w: World, ledger: Ledger, listing: seq<Name>, now: int, h: Hash)
    requires Retains(cfg) && cfg.pvcTtl > 0 && Retained(w, ledger) && UserPvcName(h) in w.cluster.pvcs
    ensures var d := CleanupExpired(cfg, w.cluster, w.pods.Keys, listing, now, NO_FAULTS);
            && (h in w.pods ==> UserPvcName(h) in d.pvcs)
            && (h in ledger ==>
                  (UserPvcName(h) !in d.pvcs <==>
                     && h !in w.pods && now - ledger[h] > cfg.pvcTtl * SECOND
                     && Reaches(w.cluster, w.pods.Keys, listing, UserPvcName(h))))
  {
    SweepRemovesExactly(cfg, w.cluster, w.pods.Keys, listing, now, UserPvcName(h));
  }

  /** In any such run, restarts included, a retention sweep deletes the claim of a user seen in
      the run exactly when it reaches the claim, the user is not tracked and more than the TTL has
      passed since the later of that user's last `get_or_create` and the manager's last deletion of
      that user's terminal. The claim of a user whose pod is starting survives any wait no longer
      than the TTL. */
  lemma SweepRespectsRetention(cfg: Settings, ws: seq<World>, es: seq<Event>, i: nat, h: Hash)
    requires Retains(cfg) && cfg.pvcTtl > 0 && IsCalmRun(cfg, ws, es) && Loose(cfg, ws[0])
    requires Initial(ws[0]) && Labelled(ws[0].cluster)
    requires i < |es| && es[i].PvcSweep? && UserPvcName(h) in ws[i].cluster.pvcs
    ensures h in ws[i].pods ==> UserPvcName(h) in ws[i + 1].cluster.pvcs
    ensures h in LedgerAfter(cfg, ws, es, i) ==>
              (UserPvcName(h) !in ws[i + 1].cluster.pvcs <==>
                 && h !in ws[i].pods && es[i].now - LedgerAfter(cfg, ws, es, i)[h] > cfg.pvcTtl * SECOND
                 && Reaches(ws[i].cluster, ws[i].pods.Keys, es[i].listing, UserPvcName(h)))
    ensures ws[i].creating.Some? && h == ws[i].creating.value.terminal.hash
            && es[i].now - ws[i].creating.value.terminal.lastActiveAt <= cfg.pvcTtl * SECOND
            ==> UserPvcName(h) in ws[i + 1].cluster.pvcs
  {
    hide Loose, CleanupExpired, LedgerAfter, Labelled, Stamped, Reaches;
    ClaimsFollowLedger(cfg, ws, es, i);
    assert Calm(cfg, ws[i], es[i]) && ws[i + 1] == Next(cfg, ws[i], es[i]);
    SweepFollowsLedger(cfg, ws[i], LedgerAfter(cfg, ws, es, i), es[i].listing, es[i].now, h);
  }

  // ---------- Claims that are never deleted ----------

  /** With retention on, no operation but the retention sweep ever deletes a claim, whatever faults
      occur; and with TTL 0 the sweep does not either. */
  lemma ClaimsAreKept(cfg: Settings, w: World, e: Event, n: Name)
    requires cfg.retainPvc && Enabled(cfg, w, e) && !e.Environment? && n in w.cluster.pvcs
    requires e.PvcSweep? ==> cfg.pvcTtl <= 0
    ensures n in Next(cfg, w, e).cluster.pvcs
  {
    match e
    case Ask(r, f) => AskKeepsClaim(cfg, w, r, f, n);
    case Poll =>
    case Answer(_, _, _) =>
    case Abandon =>
    case IdleSweep(order, now, f) => DropAllKeepsClaim(cfg, w, IdleAmong(cfg, w.pods, now, order), now, f, n);
    case HealthSweep(order, now, f) => DropAllKeepsClaim(cfg, RefreshAll(w, f), UnhealthyAmong(w, f, order), now, f, n);
    case PvcSweep(_, _, _) =>
    case CrashAndRestart(boot, f) => RestartKeepsClaims(cfg, w, boot, f);
  }

  lemma DropKeepsClaim(cfg: Settings, w: World, h: Hash, now: int, f: Faults, n: Name)
    requires cfg.retainPvc && n in w.cluster.pvcs
    ensures n in Drop(cfg, w, h, now, f).cluster.pvcs
  {
  }

  lemma {:induction false} DropAllKeepsClaim(cfg: Settings, w: World, hs: seq<Hash>, now: int, f: Faults, n: Name)
    requires cfg.retainPvc && n in w.cluster.pvcs
    ensures n in DropAll(cfg, w, hs, now, f).cluster.pvcs
  {
    if hs == [] {
    } else {
      DropAllKeepsClaim(cfg, w, hs[..|hs| - 1], now, f, n);
      DropKeepsClaim(cfg, DropAll(cfg, w, hs[..|hs| - 1], now, f), hs[|hs| - 1], now, f, n);
    }
  }

  lemma StartKeepsClaim(cfg: Settings, w: World, t: TerminalPod, listing: seq<Name>, now: int, f: Faults, n: Name)
    requires n in w.cluster.pvcs
    ensures n in StartCreation(cfg, w, t, listing, now, f).world.cluster.pvcs
  {
    assert n in PrepareStorage(cfg, w, t, listing, now, f).world.cluster.pvcs;
  }

  lemma RecycleKeepsClaim(cfg: Settings, w: World, h: Hash, now: int, f: Faults, n: Name)
    requires cfg.retainPvc && h in w.pods && n in w.cluster.pvcs
    ensures n in Recycle(cfg, w, h, now, f).world.cluster.pvcs
  {
  }

  lemma MakeRoomKeepsClaim(cfg: Settings, w: World, order: seq<Hash>, now: int, f: Faults, n: Name)
    requires cfg.retainPvc && n in w.cluster.pvcs
    ensures n in MakeRoom(cfg, w, order, now, f).cluster.pvcs
  {
    if Oldest(w.pods, order).Some? {
      DropKeepsClaim(cfg, w, Oldest(w.pods, order).value, now, f, n);
    }
  }

  lemma AskKeepsClaim(cfg: Settings, w: World, r: Request, f: Faults, n: Name)
    requires cfg.retainPvc && n in w.cluster.pvcs
    ensures n in GetOrCreate(cfg, w, r, f).world.cluster.pvcs
  {
    if !IsHit(w, r.hash) {
      if r.hash in w.pods {
        RecycleKeepsClaim(cfg, w, r.hash, r.now, f, n);
      }
      var a := if r.hash in w.pods then Recycle(cfg, w, r.hash, r.now, f) else Done(w);
      if a.Done? {
        MakeRoomKeepsClaim(cfg, a.world, r.order, r.now, f, n);
        StartKeepsClaim(cfg, MakeRoom(cfg, a.world, r.order, r.now, f),
                        Create(cfg, r.userId, r.hash, r.key, r.now), r.listing, r.now, f, n);
      }
    }
  }

  lemma {:induction false} ReconcileKeepsClaims(
    cfg: Settings, w: World, listed: seq<Pod>, names: seq<Name>, boot: Boot, f: Faults)
    requires |names| == |listed| && |names| <= |boot.clock| && |names| <= |boot.keys|
    ensures ReconcileFirst(cfg, w, listed, names, boot, f).world.cluster.pvcs == w.cluster.pvcs
  {
    if names == [] {
    } else {
      ReconcileKeepsClaims(cfg, w, listed[..|names| - 1], names[..|names| - 1], boot, f);
    }
  }

  lemma RestartKeepsClaims(cfg: Settings, w: World, boot: Boot, f: Faults)
    requires BootFits(cfg, w.cluster, boot)
    ensures Restart(cfg, w, boot, f).cluster.pvcs == w.cluster.pvcs
  {
    if ListPods !in f {
      var v := World(map[], None, None, w.cluster);
      var names := ListedPods(v.cluster, cfg.app, cfg.managedBy, boot.listing);
      ListedFit(v.cluster, cfg.app, cfg.managedBy, boot.listing);
      ReconcileKeepsClaims(cfg, v, Snapshot(v.cluster, names), names, boot, f);
    }
  }

  lemma ClaimStays(cfg: Settings, w: World, e: Event, n: Name)
    requires cfg.retainPvc && cfg.pvcTtl <= 0 && Enabled(cfg, w, e) && n in w.cluster.pvcs
    requires e.Environment? ==> e.after.pvcs == w.cluster.pvcs
    ensures n in Next(cfg, w, e).cluster.pvcs
  {
    if !e.Environment? {
      ClaimsAreKept(cfg, w, e, n);
    }
  }

  /** With retention on and TTL 0, no run ever deletes a claim, under any API faults. */
  lemma {:induction false} TtlZeroKeepsEveryClaim(cfg: Settings, ws: seq<World>, es: seq<Event>, n: Name, i: nat)
    requires cfg.retainPvc && cfg.pvcTtl <= 0 && IsRun(cfg, ws, es) && i < |ws|
    requires forall j :: 0 <= j < |es| && es[j].Environment? ==> es[j].after.pvcs == ws[j].cluster.pvcs
    requires n in ws[0].cluster.pvcs
    ensures n in ws[i].cluster.pvcs
    decreases i
  {
    hide Next, Enabled;
    if i == 0 {
    } else {
      TtlZeroKeepsEveryClaim(cfg, ws, es, n, i - 1);
      assert Enabled(cfg, ws[i - 1], es[i - 1]) && ws[i - 1 + 1] == Next(cfg, ws[i - 1], es[i - 1]);
      ClaimStays(cfg, ws[i - 1], es[i - 1], n);
    }
  }

  // ---------- Which pod deletions start a full grace period ----------

  /** After a deletion at instant `deleted`, the claim of `h` survives every sweep within the TTL of
      it, in whatever order the claims are listed. */
  ghost predicate FullGrace(cfg: Settings, w: World, h: Hash, deleted: int) {
    forall now, listing :: now - deleted <= cfg.pvcTtl * SECOND && Enumerates(listing, w.cluster.pvcs.Keys) ==>
      UserPvcName(h) in CleanupExpired(cfg, w.cluster, w.pods.Keys, listing, now, NO_FAULTS).pvcs
  }

  /** The manager's own deletions stamp the claim, so they always grant the full period. */
  lemma ManagerDeletionGrantsGrace(cfg: Settings, w: World, h: Hash, now: int)
    requires Retains(cfg) && cfg.pvcTtl > 0 && Loose(cfg, w) && h in w.pods
    requires UserPvcName(h) in w.cluster.pvcs
    ensures FullGrace(cfg, Drop(cfg, w, h, now, NO_FAULTS), h, now)
  {
    assert Live(w, h);
    DropRestamps(cfg, w, h, now);
    var v := Drop(cfg, w, h, now, NO_FAULTS);
    assert v.cluster.pvcs[UserPvcName(h)].lastActive == Stamp(now);
  }

  /** A failed start removes the pod without stamping the claim: the user keeps a full period after
      that deletion only if the wait took no time at all. */
  lemma FailedStartGrantsGraceIff(cfg: Settings, w: World, ledger: Ledger, deleted: int)
    requires Retains(cfg) && cfg.pvcTtl > 0 && Loose(cfg, w) && Retained(w, ledger) && w.creating.Some?
    requires var t := w.creating.value.terminal; UserPvcName(t.hash) in w.cluster.pvcs && deleted >= t.lastActiveAt
    ensures var t := w.creating.value.terminal;
            FullGrace(cfg, FinishCreation(w, false, None, NO_FAULTS), t.hash, deleted) <==> deleted == t.lastActiveAt
  {
    var t := w.creating.value.terminal;
    var v := FinishCreation(w, false, None, NO_FAULTS);
    assert v.cluster.pvcs == w.cluster.pvcs && v.pods == w.pods;
    UnstampedGrace(cfg, v, t.hash, t.lastActiveAt, deleted);
  }

  /** Start-up removes a pod that is not Running without stamping the claim either. */
  lemma RestartGrantsGraceIff(cfg: Settings, w: World, ledger: Ledger, boot: Boot, h: Hash, deleted: int)
    requires Retains(cfg) && cfg.pvcTtl > 0 && Loose(cfg, w) && Retained(w, ledger)
    requires BootFits(cfg, w.cluster, boot) && Complete(boot.listing, w.cluster)
    requires h in ledger && UserPvcName(h) in w.cluster.pvcs && deleted >= ledger[h]
    requires TerminalName(h) in w.cluster.pods && !IsUp(w.cluster, TerminalName(h))
    ensures FullGrace(cfg, Restart(cfg, w, boot, NO_FAULTS), h, deleted) <==> deleted == ledger[h]
  {
    RestartEffect(cfg, w, boot);
    UnstampedGrace(cfg, Restart(cfg, w, boot, NO_FAULTS), h, ledger[h], deleted);
  }

  lemma UnstampedGrace(cfg: Settings, w: World, h: Hash, stamp: int, deleted: int)
    requires Retains(cfg) && cfg.pvcTtl > 0 && h !in w.pods && Labelled(w.cluster)
    requires UserPvcName(h) in w.cluster.pvcs && w.cluster.pvcs[UserPvcName(h)].lastActive == Stamp(stamp)
    requires deleted >= stamp
    ensures FullGrace(cfg, w, h, deleted) <==> deleted == stamp
  {
    var now := stamp + cfg.pvcTtl * SECOND + 1;
    var listing := ListedFirst(UserPvcName(h), w.cluster.pvcs.Keys);
    assert Uncut(w.cluster, w.pods.Keys, listing, 0);
    assert Reaches(w.cluster, w.pods.Keys, listing, UserPvcName(h));
    assert UserPvcName(h) !in CleanupExpired(cfg, w.cluster, w.pods.Keys, listing, now, NO_FAULTS).pvcs;
  }

  /** Some list answer starts with the claim `n`. */
  lemma ListedFirst(n: Name, names: set<Name>) returns (listing: seq<Name>)
    requires n in names
    ensures Enumerates(listing, names) && listing[0] == n
  {
    var rest := SomeListing(names - {n});
    listing := [n] + rest;
    assert forall i :: 0 <= i < |rest| ==> rest[i] in rest;
  }

  lemma {:induction false} SomeListing(names: set<Name>) returns (listing: seq<Name>)
    ensures Enumerates(listing, names)
    decreases |names|
  {
    if names == {} {
      listing := [];
    } else {
      var n :| n in names;
      var rest := SomeListing(names - {n});
      listing := [n] + rest;
      assert forall i :: 0 <= i < |rest| ==> rest[i] in rest;
    }
  }
}
