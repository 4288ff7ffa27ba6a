/** Which per-user claims exist, step by step, and whether a pod's claim can be deleted under it, in runs
    that are fault-free except that waits may be cut off, and under any retention setting. */
module Claims {
  import opened Basics
  import opened Names
  import opened Base64
  import opened Terminals
  import opened ClusterModel
  import opened PodBuilder
  import opened Storage
  import opened Lifecycle
  import opened Runs
  import opened Tracking
  import opened Agreement
  import opened Recovery
  import opened Interruptions
  import opened Retention

  predicate HasClaim(c: Cluster, h: Hash) {
    UserPvcName(h) in c.pvcs
  }

  /** Claims other than those of users are never deleted. */
  ghost predicate KeepsSharedClaim(c: Cluster, d: Cluster) {
    SharedPvcName in c.pvcs ==> SharedPvcName in d.pvcs
  }

  /** `d` has lost exactly the claims of `gone`, if claims are not retained, and none otherwise. */
  ghost predicate Discarded(cfg: Settings, c: Cluster, d: Cluster, gone: set<Hash>) {
    && KeepsSharedClaim(c, d)
    && forall h :: HasClaim(d, h) <==> HasClaim(c, h) && (cfg.mode != PerUser || cfg.retainPvc || h !in gone)
  }

  lemma DropDiscards(cfg: Settings, w: World, h: Hash, now: int)
    requires h in w.pods && NamedFor(cfg, w.pods[h], h)
    ensures Discarded(cfg, w.cluster, Drop(cfg, w, h, now, NO_FAULTS).cluster, {h})
  {
  }

  lemma DiscardsCompose(cfg: Settings, b: Cluster, c: Cluster, d: Cluster, s: set<Hash>, t: set<Hash>)
    requires Discarded(cfg, b, c, s) && Discarded(cfg, c, d, t)
    ensures Discarded(cfg, b, d, s + t)
  {
  }

  lemma {:induction false} DropAllDiscards(cfg: Settings, w: World, hs: seq<Hash>, now: int)
    requires Loose(cfg, w) && forall h :: h in hs ==> h in w.pods
    ensures Discarded(cfg, w.cluster, DropAll(cfg, w, hs, now, NO_FAULTS).cluster, (set h | h in hs))
  {
    hide Discarded, Loose, Drop;
    if hs == [] {
      assert Discarded(cfg, w.cluster, w.cluster, {}) by { NothingDiscarded(cfg, w.cluster); }
      assert (set h | h in hs) == {};
    } else {
      var before, last := hs[..|hs| - 1], hs[|hs| - 1];
      var v := DropAll(cfg, w, before, now, NO_FAULTS);
      DropAllDiscards(cfg, w, before, now);
      DropAllShape(cfg, w, before, now, NO_FAULTS);
      DropAllStaysLoose(cfg, w, before, now, "");
      assert (set h | h in hs) == (set h | h in before) + {last};
      if last in v.pods {
        TrackedIsNamed(cfg, v, last);
        DropDiscards(cfg, v, last, now);
        var d := DropAll(cfg, w, hs, now, NO_FAULTS).cluster;
        DiscardsCompose(cfg, w.cluster, v.cluster, d, (set h | h in before), {last});
      } else {
        assert last in before && DropAll(cfg, w, hs, now, NO_FAULTS) == v by { DropMissing(cfg, v, last, now); }
        assert (set h | h in before) + {last} == set h | h in before;
      }
    }
  }

  lemma NothingDiscarded(cfg: Settings, c: Cluster)
    ensures Discarded(cfg, c, c, {})
  {
  }

  lemma MakeRoomDiscards(cfg: Settings, w: World, order: seq<Hash>, now: int)
    requires Loose(cfg, w)
    ensures Discarded(cfg, w.cluster, MakeRoom(cfg, w, order, now, NO_FAULTS).cluster, Evicted(cfg, w, order))
  {
    if |w.pods| >= cfg.maxPods && Oldest(w.pods, order).Some? {
      TrackedIsNamed(cfg, w, Oldest(w.pods, order).value);
      DropDiscards(cfg, w, Oldest(w.pods, order).value, now);
    }
  }

  /** A creation, even one that fails, leaves its user with a claim in per-user mode. */
  lemma StartAddsClaim(cfg: Settings, w: World, userId: string, h: Hash, key: ApiKey, listing: seq<Name>, now: int)
    ensures var d := StartCreation(cfg, w, Create(cfg, userId, h, key, now), listing, now, NO_FAULTS).world.cluster;
            && KeepsSharedClaim(w.cluster, d)
            && forall g :: HasClaim(d, g) <==> HasClaim(w.cluster, g) || (cfg.mode == PerUser && g == h)
  {
    hide PrepareStorage, StartCreation;
    var t := Create(cfg, userId, h, key, now);
    StartKeepsClaims(cfg, w, t, listing, now);
    PrepareAddsClaim(cfg, w, t, listing, now);
  }

  lemma PrepareAddsClaim(cfg: Settings, w: World, t: TerminalPod, listing: seq<Name>, now: int)
    requires NamedFor(cfg, t, t.hash)
    ensures var d := PrepareStorage(cfg, w, t, listing, now, NO_FAULTS).world.cluster;
            && KeepsSharedClaim(w.cluster, d)
            && forall g :: HasClaim(d, g) <==> HasClaim(w.cluster, g) || (cfg.mode == PerUser && g == t.hash)
  {
  }

  /** The user for whom a step starts a creation, if any. */
  function Starting(w: World, e: Event): set<Hash> {
    if e.Ask? && e.request.hash !in w.pods then {e.request.hash} else {}
  }

  ghost predicate SweptAway(cfg: Settings, w: World, e: Event, h: Hash) {
    e.PvcSweep? && SweepRuns(cfg, NO_FAULTS) && HasClaim(w.cluster, h)
    && Expired(cfg, w.cluster.pvcs[UserPvcName(h)], w.pods.Keys, e.now)
    && Reaches(w.cluster, w.pods.Keys, e.listing, UserPvcName(h))
  }

  lemma AskChangesClaims(cfg: Settings, w: World, r: Request, h: Hash)
    requires Loose(cfg, w) && Enabled(cfg, w, Ask(r, NO_FAULTS)) && cfg.mode == PerUser
    ensures HasClaim(GetOrCreate(cfg, w, r, NO_FAULTS).world.cluster, h)
            <==> (h == r.hash && h !in w.pods)
                 || (HasClaim(w.cluster, h) && (cfg.retainPvc || h !in Deleted(cfg, w, Ask(r, NO_FAULTS))))
  {
    hide GetOrCreate, StartCreation, MakeRoom, Enumerates;
    LooseIsTracked(cfg, w);
    AskUnfolds(cfg, w, r, NO_FAULTS);
    if r.hash !in w.pods {
      MakeRoomDiscards(cfg, w, r.order, r.now);
      StartAddsClaim(cfg, MakeRoom(cfg, w, r.order, r.now, NO_FAULTS), r.userId, r.hash, r.key, r.listing, r.now);
    }
  }

  /** In per-user mode a such step adds the claim of the user for whom it starts a creation, and
      removes exactly those of the users whose terminals the manager deletes, unless claims are
      retained, and those the retention sweep finds expired. */
  lemma ClaimsChangeExactly(cfg: Settings, w: World, e: Event, h: Hash)
    requires cfg.mode == PerUser && Loose(cfg, w) && Calm(cfg, w, e)
    ensures HasClaim(Next(cfg, w, e).cluster, h)
            <==> h in Starting(w, e)
                 || (HasClaim(w.cluster, h) && (cfg.retainPvc || h !in Deleted(cfg, w, e)) && !SweptAway(cfg, w, e, h))
  {
    hide Loose, GetOrCreate, CleanupIdle, CheckHealth, Restart, Unhealthy, Idle, Enumerates;
    match e
    case Ask(r, _) => AskChangesClaims(cfg, w, r, h);
    case Poll =>
    case Answer(_, _, _) =>
    case Abandon =>
    case IdleSweep(order, now, _) => IdleSweepDiscards(cfg, w, order, now);
    case HealthSweep(order, now, _) => HealthSweepDiscards(cfg, w, order, now);
    case PvcSweep(_, _, _) =>
    case Environment(_) =>
    case CrashAndRestart(boot, f) => RestartKeepsClaims(cfg, w, boot, f);
  }

  lemma IdleSweepDiscards(cfg: Settings, w: World, order: seq<Hash>, now: int)
    requires Loose(cfg, w) && Enumerates(order, w.pods.Keys)
    ensures Discarded(cfg, w.cluster, CleanupIdle(cfg, w, order, now, NO_FAULTS).cluster,
                      (set h | h in w.pods && Idle(cfg, w.pods, now, h)))
  {
    hide Discarded, Loose, Idle, DropAll;
    var hs := IdleAmong(cfg, w.pods, now, order);
    IdleAmongMembers(cfg, w.pods, now, order);
    DropAllDiscards(cfg, w, hs, now);
    assert (set h | h in hs) == set h | h in w.pods && Idle(cfg, w.pods, now, h);
  }

  lemma HealthSweepDiscards(cfg: Settings, w: World, order: seq<Hash>, now: int)
    requires Loose(cfg, w) && Enumerates(order, w.pods.Keys)
    ensures Discarded(cfg, w.cluster, CheckHealth(cfg, w, order, now, NO_FAULTS).cluster,
                      (set h | h in w.pods && Unhealthy(w, NO_FAULTS, h)))
  {
    hide Discarded, Loose, Unhealthy, DropAll, Refreshed;
    var hs := UnhealthyAmong(w, NO_FAULTS, order);
    UnhealthyAmongMembers(w, NO_FAULTS, order);
    RefreshStaysLoose(cfg, w, "");
    DropAllDiscards(cfg, RefreshAll(w, NO_FAULTS), hs, now);
    assert (set h | h in hs) == set h | h in w.pods && Unhealthy(w, NO_FAULTS, h);
  }

  // ---------- No claim is deleted under a pod ----------

  /** Every pod's claim exists. */
  ghost predicate Mounted(c: Cluster) {
    forall n :: n in c.pods && c.pods[n].claim.Some? ==> c.pods[n].claim.value in c.pvcs
  }

  /** The pods of `d` are pods of `c`, with the claims they had. */
  ghost predicate PodsFrom(c: Cluster, d: Cluster) {
    forall n :: n in d.pods ==> n in c.pods && d.pods[n].claim == c.pods[n].claim
  }

  lemma FewerPodsStayMounted(c: Cluster, d: Cluster)
    requires Mounted(c) && PodsFrom(c, d) && d.pvcs.Keys >= c.pvcs.Keys
    ensures Mounted(d)
  {
  }

  lemma DropStaysMounted(cfg: Settings, w: World, h: Hash, now: int)
    requires Loose(cfg, w) && Mounted(w.cluster) && h in w.pods
    ensures Mounted(Drop(cfg, w, h, now, NO_FAULTS).cluster)
  {
    hide TerminalsNamed, Paired, LiveUsersHaveSecrets, Drop, TearDown, Discarded, KeyReadable;
    TrackedIsNamed(cfg, w, h);
    DropDiscards(cfg, w, h, now);
    DropRemovesPod(cfg, w, h, now);
    DiscardingStaysMounted(cfg, w.cluster, Drop(cfg, w, h, now, NO_FAULTS).cluster, h);
  }

  lemma DropRemovesPod(cfg: Settings, w: World, h: Hash, now: int)
    requires h in w.pods && w.pods[h].Named(h)
    ensures Drop(cfg, w, h, now, NO_FAULTS).cluster.pods == w.cluster.pods - {TerminalName(h)}
  {
    TearDownClean(cfg, w.cluster, w.pods[h], h, now);
  }

  lemma DiscardingStaysMounted(cfg: Settings, c: Cluster, d: Cluster, h: Hash)
    requires forall n :: n in c.pods ==> n.TerminalName? && ShapedFor(cfg, n.hash, c.pods[n])
    requires Mounted(c) && Discarded(cfg, c, d, {h}) && d.pods == c.pods - {TerminalName(h)}
    ensures Mounted(d)
  {
    forall n | n in d.pods && d.pods[n].claim.Some? ensures d.pods[n].claim.value in d.pvcs {
      assert n.hash != h;
      assert HasClaim(d, n.hash) <==> HasClaim(c, n.hash);
    }
  }

  lemma {:induction false} DropAllStaysMounted(cfg: Settings, w: World, hs: seq<Hash>, now: int)
    requires Loose(cfg, w) && Mounted(w.cluster)
    ensures Mounted(DropAll(cfg, w, hs, now, NO_FAULTS).cluster)
  {
    hide Loose, Mounted, Drop;
    if hs == [] {
    } else {
      DropAllStaysMounted(cfg, w, hs[..|hs| - 1], now);
      DropAllStaysLoose(cfg, w, hs[..|hs| - 1], now, "");
      var v := DropAll(cfg, w, hs[..|hs| - 1], now, NO_FAULTS);
      if hs[|hs| - 1] in v.pods {
        DropStaysMounted(cfg, v, hs[|hs| - 1], now);
      } else {
        DropMissing(cfg, v, hs[|hs| - 1], now);
      }
    }
  }

  lemma MakeRoomStaysMounted(cfg: Settings, w: World, order: seq<Hash>, now: int)
    requires Loose(cfg, w) && Mounted(w.cluster)
    ensures Mounted(MakeRoom(cfg, w, order, now, NO_FAULTS).cluster)
  {
    hide Loose, Mounted, Drop;
    if |w.pods| >= cfg.maxPods && Oldest(w.pods, order).Some? {
      DropStaysMounted(cfg, w, Oldest(w.pods, order).value, now);
    }
  }

  lemma StartStaysMounted(
    cfg: Settings, w: World, userId: string, h: Hash, key: ApiKey, listing: seq<Name>, now: int)
    requires Loose(cfg, w) && Mounted(w.cluster)
    ensures Mounted(StartCreation(cfg, w, Create(cfg, userId, h, key, now), listing, now, NO_FAULTS).world.cluster)
  {
    hide StartCreation, PrepareStorage, TerminalsNamed, Paired, LiveUsersHaveSecrets, KeyReadable;
    var t := Create(cfg, userId, h, key, now);
    var a := StartCreation(cfg, w, t, listing, now, NO_FAULTS);
    SecretlessUserHasNothing(cfg, w, h);
    StartCreationCore(cfg, w, userId, h, key, listing, now);
    StartedPodHasItsClaim(cfg, w, userId, h, key, listing, now);
    StartAddsClaim(cfg, w, userId, h, key, listing, now);
    forall n | n in w.cluster.pods && w.cluster.pods[n].claim.Some?
      ensures w.cluster.pods[n].claim.value in a.world.cluster.pvcs
    {
      assert HasClaim(w.cluster, n.hash) ==> HasClaim(a.world.cluster, n.hash);
    }
  }

  lemma AskStaysMounted(cfg: Settings, w: World, r: Request)
    requires Loose(cfg, w) && Mounted(w.cluster) && Enabled(cfg, w, Ask(r, NO_FAULTS))
    ensures Mounted(GetOrCreate(cfg, w, r, NO_FAULTS).world.cluster)
  {
    hide Loose, GetOrCreate, StartCreation, MakeRoom, Enumerates;
    LooseIsTracked(cfg, w);
    AskUnfolds(cfg, w, r, NO_FAULTS);
    if r.hash !in w.pods {
      MakeRoomStaysMounted(cfg, w, r.order, r.now);
      MakeRoomShape(cfg, w, r.order, r.now, NO_FAULTS);
      MakeRoomStaysLoose(cfg, w, r.order, r.now, "");
      StartStaysMounted(cfg, MakeRoom(cfg, w, r.order, r.now, NO_FAULTS), r.userId, r.hash, r.key, r.listing, r.now);
    }
  }

  lemma RestartStaysMounted(cfg: Settings, w: World, boot: Boot)
    requires Loose(cfg, w) && Mounted(w.cluster) && BootFits(cfg, w.cluster, boot) && Complete(boot.listing, w.cluster)
    ensures Mounted(Restart(cfg, w, boot, NO_FAULTS).cluster)
  {
    hide Restart, TerminalsNamed, Paired, LiveUsersHaveSecrets, Readopted;
    RestartEffect(cfg, w, boot);
  }

  lemma FinishStaysMounted(w: World, ready: bool, ip: Option<string>)
    requires Mounted(w.cluster) && w.creating.Some?
    ensures Mounted(FinishCreation(w, ready, ip, NO_FAULTS).cluster)
  {
    FewerPodsStayMounted(w.cluster, FinishCreation(w, ready, ip, NO_FAULTS).cluster);
  }

  /** Every such step but the retention sweep keeps every pod's claim. */
  lemma MountedStep(cfg: Settings, w: World, e: Event)
    requires Loose(cfg, w) && Mounted(w.cluster) && Calm(cfg, w, e) && !e.PvcSweep?
    ensures Mounted(Next(cfg, w, e).cluster)
  {
    hide Loose, Mounted, GetOrCreate, FinishCreation, Restart, DropAll, RefreshAll;
    match e
    case Ask(r, _) => AskStaysMounted(cfg, w, r);
    case Poll =>
    case Answer(ready, ip, _) => FinishStaysMounted(w, ready, ip);
    case Abandon =>
    case IdleSweep(order, now, _) => DropAllStaysMounted(cfg, w, IdleAmong(cfg, w.pods, now, order), now);
    case HealthSweep(order, now, f) =>
      RefreshStaysLoose(cfg, w, "");
      RefreshKeepsCluster(w, f);
      DropAllStaysMounted(cfg, RefreshAll(w, f), UnhealthyAmong(w, f, order), now);
    case Environment(after) => FewerPodsStayMounted(w.cluster, after);
    case CrashAndRestart(boot, _) => RestartStaysMounted(cfg, w, boot);
  }

  /** The sweep reaches the expired claim of an existing pod that the manager does not track. */
  ghost predicate Overtakes(cfg: Settings, w: World, e: Event) {
    exists n :: n in w.cluster.pods && n.TerminalName? && SweptAway(cfg, w, e, n.hash)
  }

  lemma IdleRetentionSweep(cfg: Settings, w: World, e: Event)
    requires e.PvcSweep? && Calm(cfg, w, e) && !SweepRuns(cfg, NO_FAULTS)
    ensures Next(cfg, w, e) == w
  {
  }

  /** One sweep leaves every pod its claim exactly if it does not overtake one. */
  lemma SweepSparesMountedIff(cfg: Settings, w: World, e: Event)
    requires Loose(cfg, w) && Mounted(w.cluster) && Calm(cfg, w, e) && e.PvcSweep? && SweepRuns(cfg, NO_FAULTS)
    ensures Mounted(Next(cfg, w, e).cluster) <==> !Overtakes(cfg, w, e)
  {
    hide TerminalsNamed, Paired, LiveUsersHaveSecrets, KeyReadable, CleanupExpired, Expired, Reaches;
    var d := Next(cfg, w, e).cluster;
    SweepKeepsPods(cfg, w.cluster, w.pods.Keys, e.listing, e.now);
    forall n | n in w.cluster.pods ensures n.TerminalName? && w.cluster.pods[n].claim == Some(UserPvcName(n.hash)) {}
    forall n | n in w.cluster.pods ensures UserPvcName(n.hash) in d.pvcs <==> !SweptAway(cfg, w, e, n.hash) {
      SweepRemovesExactly(cfg, w.cluster, w.pods.Keys, e.listing, e.now, UserPvcName(n.hash));
    }
  }

  lemma SweepKeepsPods(cfg: Settings, c: Cluster, active: set<Hash>, listing: seq<Name>, now: int)
    ensures CleanupExpired(cfg, c, active, listing, now, NO_FAULTS).pods == c.pods
  {
  }

  /** One step keeps every pod's claim exactly if it is not an overtaking sweep. */
  lemma MountedStepIff(cfg: Settings, w: World, e: Event)
    requires Loose(cfg, w) && Calm(cfg, w, e) && Mounted(w.cluster)
    ensures Mounted(Next(cfg, w, e).cluster) <==> !Overtakes(cfg, w, e)
  {
    hide Loose, Next, Enabled, SweepRuns, Mounted, Reaches;
    if !e.PvcSweep? {
      MountedStep(cfg, w, e);
    } else if SweepRuns(cfg, NO_FAULTS) {
      SweepSparesMountedIff(cfg, w, e);
    } else {
      IdleRetentionSweep(cfg, w, e);
    }
  }

  /** In every such run, whatever the storage mode and retention setting, every pod keeps its claim up to
      state `i` exactly if no retention sweep before it overtakes a pod. */
  lemma {:induction false} MountedClaimsExist(cfg: Settings, ws: seq<World>, es: seq<Event>, i: nat)
    requires IsCalmRun(cfg, ws, es) && Loose(cfg, ws[0]) && Mounted(ws[0].cluster) && i < |ws|
    ensures (forall k :: 0 <= k <= i ==> Mounted(ws[k].cluster))
            <==> (forall j :: 0 <= j < i ==> !Overtakes(cfg, ws[j], es[j]))
    decreases i
  {
    hide Enabled, Next, Calm, Loose, Mounted, Overtakes;
    if i == 0 {
    } else {
      MountedClaimsExist(cfg, ws, es, i - 1);
      CalmRunStaysLoose(cfg, ws, es, i - 1);
      assert Calm(cfg, ws[i - 1], es[i - 1]) && ws[i - 1 + 1] == Next(cfg, ws[i - 1], es[i - 1]);
      if Mounted(ws[i - 1].cluster) {
        MountedStepIff(cfg, ws[i - 1], es[i - 1]);
      }
    }
  }

  // ---------- Which pods can be overtaken ----------

  ghost predicate PodsInLedger(w: World, ledger: Ledger) {
    forall n :: n in w.cluster.pods ==> n.TerminalName? && n.hash in ledger
  }

  lemma PodsInLedgerStep(cfg: Settings, w: World, e: Event, ledger: Ledger)
    requires Loose(cfg, w) && Calm(cfg, w, e) && PodsInLedger(w, ledger)
    ensures PodsInLedger(Next(cfg, w, e), LedgerStep(cfg, ledger, w, e))
  {
    hide Loose, Deleted, Restart, Live;
    if e.CrashAndRestart? {
      RestartKeepsOldPods(cfg, w, e);
    } else {
      NewPodsHaveLiveUsers(cfg, w, e);
    }
    hide Next, Calm;
  }


  lemma {:induction false} PodsStayInLedger(cfg: Settings, ws: seq<World>, es: seq<Event>, i: nat)
    requires IsCalmRun(cfg, ws, es) && Loose(cfg, ws[0]) && ws[0].cluster.pods == map[] && i < |ws|
    ensures PodsInLedger(ws[i], LedgerAfter(cfg, ws, es, i))
    decreases i
  {
    hide Enabled, Next, Calm, Loose, PodsInLedger, LedgerStep;
    if i == 0 {
      assert PodsInLedger(ws[0], map[]) by { NoPodsInLedger(ws[0]); }
    } else {
      PodsStayInLedger(cfg, ws, es, i - 1);
      CalmRunStaysLoose(cfg, ws, es, i - 1);
      assert Calm(cfg, ws[i - 1], es[i - 1]) && ws[i - 1 + 1] == Next(cfg, ws[i - 1], es[i - 1]);
      PodsInLedgerStep(cfg, ws[i - 1], es[i - 1], LedgerAfter(cfg, ws, es, i - 1));
    }
  }

  lemma NoPodsInLedger(w: World)
    requires w.cluster.pods == map[]
    ensures PodsInLedger(w, map[])
  {
  }

  /** The pod `n` of an untracked user, whose last request or deletion is more than the TTL ago. */
  predicate OutOfTime(cfg: Settings, w: World, ledger: Ledger, now: int, n: Name) {
    n in w.cluster.pods && n.TerminalName? && n.hash !in w.pods
    && n.hash in ledger && now - ledger[n.hash] > cfg.pvcTtl * SECOND
  }

  /** In a run from an empty namespace a sweep overtakes exactly the pods of untracked users whose last
      request or deletion by the manager is more than the TTL ago, and whose claims it reaches: pods that
      are starting, and pods that a cut-off wait left over. */
  lemma OvertakesIff(cfg: Settings, ws: seq<World>, es: seq<Event>, i: nat)
    requires IsCalmRun(cfg, ws, es) && Loose(cfg, ws[0]) && Initial(ws[0]) && Labelled(ws[0].cluster)
    requires ws[0].cluster.pods == map[] && i < |es| && es[i].PvcSweep? && SweepRuns(cfg, NO_FAULTS)
    requires Mounted(ws[i].cluster)
    ensures Overtakes(cfg, ws[i], es[i])
            <==> exists n :: OutOfTime(cfg, ws[i], LedgerAfter(cfg, ws, es, i), es[i].now, n)
                             && Reaches(ws[i].cluster, ws[i].pods.Keys, es[i].listing, UserPvcName(n.hash))
    ensures forall n :: OutOfTime(cfg, ws[i], LedgerAfter(cfg, ws, es, i), es[i].now, n) ==>
              n in LeftOver(ws[i]) || (ws[i].creating.Some? && n.hash == ws[i].creating.value.terminal.hash)
  {
    hide Enabled, Next, Loose, LedgerAfter, Retained, PodsInLedger, Labelled, Mounted, Reaches, Expired;
    PodsStayInLedger(cfg, ws, es, i);
    ClaimsFollowLedger(cfg, ws, es, i);
    var ledger := LedgerAfter(cfg, ws, es, i);
    forall n ensures (n in ws[i].cluster.pods && n.TerminalName? && SweptAway(cfg, ws[i], es[i], n.hash))
                     <==> (OutOfTime(cfg, ws[i], ledger, es[i].now, n)
                           && Reaches(ws[i].cluster, ws[i].pods.Keys, es[i].listing, UserPvcName(n.hash)))
    {
      SweptAwayIff(cfg, ws[i], es[i], ledger, n);
    }
  }

  lemma SweptAwayIff(cfg: Settings, w: World, e: Event, ledger: Ledger, n: Name)
    requires Loose(cfg, w) && Mounted(w.cluster) && Retained(w, ledger) && PodsInLedger(w, ledger)
    requires e.PvcSweep? && SweepRuns(cfg, NO_FAULTS)
    ensures n in w.cluster.pods && n.TerminalName? && SweptAway(cfg, w, e, n.hash)
            <==> OutOfTime(cfg, w, ledger, e.now, n)
                 && Reaches(w.cluster, w.pods.Keys, e.listing, UserPvcName(n.hash))
  {
    hide TerminalsNamed, Paired, LiveUsersHaveSecrets, KeyReadable, Reaches;
    if n in w.cluster.pods {
      assert w.cluster.pods[n].claim == Some(UserPvcName(n.hash));
    }
  }

  /** In a fault-free run nothing is left over, so only the pod that is starting can be overtaken: exactly
      when it exists, has been starting for longer than the TTL, and its claim is reached. */
  lemma OvertakesOnlyStarting(cfg: Settings, ws: seq<World>, es: seq<Event>, i: nat)
    requires IsCleanRun(cfg, ws, es) && Consistent(cfg, ws[0]) && Initial(ws[0]) && Labelled(ws[0].cluster)
    requires i < |es| && es[i].PvcSweep? && SweepRuns(cfg, NO_FAULTS) && Mounted(ws[i].cluster)
    ensures Overtakes(cfg, ws[i], es[i]) <==>
              && ws[i].creating.Some?
              && var t := ws[i].creating.value.terminal;
                 && TerminalName(t.hash) in ws[i].cluster.pods
                 && es[i].now - t.lastActiveAt > cfg.pvcTtl * SECOND
                 && Reaches(ws[i].cluster, ws[i].pods.Keys, es[i].listing, UserPvcName(t.hash))
  {
    hide Enabled, Next, LedgerAfter, Labelled, Stamped, Mounted, Reaches, Overtakes, Consistent, Loose;
    CleanIsCalm(cfg, ws, es);
    ConsistentIsLoose(cfg, ws[0]);
    NoPodsAtFirst(cfg, ws[0]);
    ClusterAgreement(cfg, ws, es);
    CalmRunStaysLoose(cfg, ws, es, i);
    LooseIsTracked(cfg, ws[i]);
    NothingLeftOver(cfg, ws[i]);
    ClaimsFollowLedger(cfg, ws, es, i);
    OvertakesIff(cfg, ws, es, i);
    if ws[i].creating.Some? {
      var n := TerminalName(ws[i].creating.value.terminal.hash);
      assert n.hash == ws[i].creating.value.terminal.hash;
      assert OutOfTime(cfg, ws[i], LedgerAfter(cfg, ws, es, i), es[i].now, n)
        <==> n in ws[i].cluster.pods && es[i].now - ws[i].creating.value.terminal.lastActiveAt > cfg.pvcTtl * SECOND;
    }
    forall n | OutOfTime(cfg, ws[i], LedgerAfter(cfg, ws, es, i), es[i].now, n)
      ensures ws[i].creating.Some? && n == TerminalName(ws[i].creating.value.terminal.hash) {}
  }

  lemma NoPodsAtFirst(cfg: Settings, w: World)
    requires Consistent(cfg, w) && Initial(w)
    ensures w.cluster.pods == map[]
  {
  }

  lemma NothingLeftOver(cfg: Settings, w: World)
    requires Consistent(cfg, w)
    ensures LeftOver(w) == {}
  {
  }
}
