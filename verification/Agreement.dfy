/** Agreement between the manager and the cluster in fault-free runs. */
module Agreement {
  import opened Basics
  import opened Names
  import opened Base64
  import opened Terminals
  import opened ClusterModel
  import opened PodBuilder
  import opened Lifecycle
  import opened Runs
  import opened Tracking

  /** The users the manager knows: tracked, or being created. */
  ghost predicate Live(w: World, h: Hash) {
    h in w.pods || (w.creating.Some? && w.creating.value.terminal.hash == h)
  }

  function TerminalOf(w: World, h: Hash): TerminalPod
    requires Live(w, h)
  {
    if h in w.pods then w.pods[h] else w.creating.value.terminal
  }

  /** Names follow from the hash, and whether there is a claim name follows from the storage mode,
      except that shared modes carry a meaningless one until the next restart. */
  ghost predicate TerminalsNamed(cfg: Settings, w: World) {
    && Tracked(w)
    && forall h :: Live(w, h) ==> IsHash(h) && NamedFor(cfg, TerminalOf(w, h), h)
  }

  ghost predicate NamedFor(cfg: Settings, t: TerminalPod, h: Hash) {
    && t.Named(h)
    && (cfg.mode == PerUser ==> t.pvcName.Some?)
    && (cfg.mode == NoStorage ==> t.pvcName.None?)
  }

  /** Every pod belongs to a live user and has the shape built for that user. */
  ghost predicate PodsBelong(cfg: Settings, w: World) {
    forall n :: n in w.cluster.pods ==>
      && n.TerminalName? && Live(w, n.hash)
      && ShapedFor(cfg, n.hash, w.cluster.pods[n])
      && (w.cluster.pods[n].phase == Phase.Running ==> Truthy(w.cluster.pods[n].node))
  }

  /** Services and secrets come in pairs, and every live user has the pair, with the right key. */
  ghost predicate PairsComplete(cfg: Settings, w: World) {
    && (forall n :: n in w.cluster.services ==>
          && n.TerminalName? && w.cluster.services[n] == Service(cfg.app, n.hash)
          && SecretName(n.hash) in w.cluster.secrets)
    && (forall n :: n in w.cluster.secrets ==> n.SecretName? && TerminalName(n.hash) in w.cluster.services)
    && (forall h :: Live(w, h) ==>
          && TerminalName(h) in w.cluster.services && SecretName(h) in w.cluster.secrets
          && w.cluster.secrets[SecretName(h)] == BuildSecret(TerminalOf(w, h).apiKey))
  }

  ghost predicate Consistent(cfg: Settings, w: World) {
    TerminalsNamed(cfg, w) && PodsBelong(cfg, w) && PairsComplete(cfg, w)
  }

  /** No service, and hence no secret, outlives its user. */
  ghost predicate NoOrphans(w: World) {
    forall n :: n in w.cluster.services ==> n.TerminalName? && Live(w, n.hash)
  }

  /** No live user has lost the pod object. */
  ghost predicate PodsPresent(w: World) {
    forall h :: Live(w, h) ==> TerminalName(h) in w.cluster.pods
  }

  // ---------- One user less, one user more ----------

  /** `v` is `w` without the live user `h` and without that user's three objects. */
  ghost predicate Without(w: World, v: World, h: Hash) {
    && Live(w, h) && !Live(v, h)
    && (forall g :: Live(v, g) <==> Live(w, g) && g != h)
    && (forall g :: Live(v, g) ==> TerminalOf(v, g) == TerminalOf(w, g))
    && v.cluster.pods == w.cluster.pods - {TerminalName(h)}
    && v.cluster.services == w.cluster.services - {TerminalName(h)}
    && v.cluster.secrets == w.cluster.secrets - {SecretName(h)}
  }

  lemma WithoutKeepsPods(cfg: Settings, w: World, v: World, h: Hash)
    requires PodsBelong(cfg, w) && Without(w, v, h)
    ensures PodsBelong(cfg, v) && (PodsPresent(w) ==> PodsPresent(v))
  {
  }

  lemma WithoutKeepsPairs(cfg: Settings, w: World, v: World, h: Hash)
    requires PairsComplete(cfg, w) && Without(w, v, h)
    ensures PairsComplete(cfg, v) && (NoOrphans(w) ==> NoOrphans(v))
  {
  }

  lemma WithoutKeepsAgreement(cfg: Settings, w: World, v: World, h: Hash)
    requires Consistent(cfg, w) && Tracked(v) && Without(w, v, h)
    ensures Consistent(cfg, v)
    ensures NoOrphans(w) ==> NoOrphans(v)
    ensures PodsPresent(w) ==> PodsPresent(v)
  {
    hide PodsBelong, PairsComplete, NoOrphans, PodsPresent;
    WithoutKeepsPods(cfg, w, v, h);
    WithoutKeepsPairs(cfg, w, v, h);
  }

  lemma TearDownClean(cfg: Settings, c: Cluster, t: TerminalPod, h: Hash, now: int)
    requires t.Named(h)
    ensures var d := TearDown(cfg, c, t, now, NO_FAULTS);
            && d.pods == c.pods - {TerminalName(h)}
            && d.services == c.services - {TerminalName(h)}
            && d.secrets == c.secrets - {SecretName(h)}
  {
  }

  lemma DropIsWithout(cfg: Settings, w: World, h: Hash, now: int)
    requires TerminalsNamed(cfg, w) && h in w.pods
    ensures var v := Drop(cfg, w, h, now, NO_FAULTS);
            Without(w, v, h) && Tracked(v)
  {
    assert Live(w, h);
    TearDownClean(cfg, w.cluster, w.pods[h], h, now);
  }

  lemma DropKeepsAgreement(cfg: Settings, w: World, h: Hash, now: int)
    requires Consistent(cfg, w) && h in w.pods
    ensures var v := Drop(cfg, w, h, now, NO_FAULTS);
            && Consistent(cfg, v) && Without(w, v, h)
            && (NoOrphans(w) ==> NoOrphans(v)) && (PodsPresent(w) ==> PodsPresent(v))
  {
    hide TerminalsNamed, Without, Drop, NoOrphans, PodsPresent;
    DropIsWithout(cfg, w, h, now);
    hide Consistent;
    WithoutKeepsAgreement(cfg, w, Drop(cfg, w, h, now, NO_FAULTS), h);
  }

  lemma {:induction false} DropAllKeepsAgreement(cfg: Settings, w: World, hs: seq<Hash>, now: int)
    requires Consistent(cfg, w)
    ensures var v := DropAll(cfg, w, hs, now, NO_FAULTS);
            && Consistent(cfg, v)
            && (NoOrphans(w) ==> NoOrphans(v)) && (PodsPresent(w) ==> PodsPresent(v))
  {
    if hs == [] {
    } else {
      DropAllKeepsAgreement(cfg, w, hs[..|hs| - 1], now);
      var v := DropAll(cfg, w, hs[..|hs| - 1], now, NO_FAULTS);
      if hs[|hs| - 1] in v.pods {
        DropKeepsAgreement(cfg, v, hs[|hs| - 1], now);
      }
    }
  }

  /** The pods, services and secrets are the same; claims may differ. */
  ghost predicate SameObjects(c: Cluster, d: Cluster) {
    d.pods == c.pods && d.services == c.services && d.secrets == c.secrets
  }

  /** Changing only clocks and addresses of terminals, claims, or what a poll saw, keeps agreement. */
  lemma SameObjectsKeepAgreement(cfg: Settings, w: World, v: World)
    requires Consistent(cfg, w)
    requires SameObjects(w.cluster, v.cluster)
    requires v.pods.Keys == w.pods.Keys
    requires forall h :: h in v.pods ==>
               exists now, ip :: v.pods[h] == w.pods[h].(lastActiveAt := now, podIp := ip)
    requires v.creating.Some? == w.creating.Some?
    requires v.creating.Some? ==> v.creating.value.terminal == w.creating.value.terminal
    ensures Consistent(cfg, v) && (NoOrphans(w) ==> NoOrphans(v)) && (PodsPresent(w) ==> PodsPresent(v))
  {
    forall h ensures Live(v, h) <==> Live(w, h) {}
    forall h | Live(v, h)
      ensures NamedFor(cfg, TerminalOf(v, h), h) && TerminalOf(v, h).apiKey == TerminalOf(w, h).apiKey && IsHash(h)
      ensures h in v.pods ==> TerminalOf(v, h).state == PodState.Running
    {
      assert Live(w, h);
      if h in v.pods {
        var now, ip :| v.pods[h] == w.pods[h].(lastActiveAt := now, podIp := ip);
      }
    }
  }

  // ---------- Creations ----------

  lemma PrepareStorageClean(cfg: Settings, w: World, t: TerminalPod, listing: seq<Name>, now: int)
    ensures var a := PrepareStorage(cfg, w, t, listing, now, NO_FAULTS);
            && a.Done?
            && a.world.pods == w.pods && a.world.creating == w.creating
            && a.world.cluster.pods == w.cluster.pods
            && a.world.cluster.services == w.cluster.services
            && a.world.cluster.secrets == w.cluster.secrets
  {
  }

  /** The attempt `a` to create the objects of `t` fails exactly if the user already has a secret, and
      then it touches no object; otherwise it adds the user's three objects and nothing else. */
  ghost predicate CreatesOrConflicts(cfg: Settings, w: World, t: TerminalPod, a: Attempt) {
    && (a.Raised? <==> SecretName(t.hash) in w.cluster.secrets)
    && (a.Raised? ==> a.world.cluster.pods == w.cluster.pods && a.world.cluster.services == w.cluster.services
                      && a.world.cluster.secrets == w.cluster.secrets)
    && (a.Done? ==> var m := BuildPodForUser(cfg, t, if cfg.mode == SharedRwo then a.world.sharedNode else None);
                    && m.Some? && ShapedFor(cfg, t.hash, m.value.pod) && m.value.pod.phase == Pending
                    && a.world.cluster.pods == w.cluster.pods[TerminalName(t.hash) := m.value.pod]
                    && a.world.cluster.services == w.cluster.services[TerminalName(t.hash) := Service(cfg.app, t.hash)]
                    && a.world.cluster.secrets == w.cluster.secrets[SecretName(t.hash) := BuildSecret(t.apiKey)])
  }

  /** Without a secret the user `h` has no pod and no service either. */
  ghost predicate NothingWithoutSecret(c: Cluster, h: Hash) {
    TerminalName(h) in c.pods || TerminalName(h) in c.services ==> SecretName(h) in c.secrets
  }

  /** It suffices that a user without a secret has no pod and no service either. */
  lemma StartCreationCore(cfg: Settings, w: World, userId: string, h: Hash, key: ApiKey, listing: seq<Name>, now: int)
    requires NothingWithoutSecret(w.cluster, h)
    ensures var t := Create(cfg, userId, h, key, now);
            CreatesOrConflicts(cfg, w, t, StartCreation(cfg, w, t, listing, now, NO_FAULTS))
  {
    hide PrepareStorage;
    PrepareStorageClean(cfg, w, Create(cfg, userId, h, key, now), listing, now);
  }

  lemma StartCreationClean(cfg: Settings, w: World, userId: string, h: Hash, key: ApiKey, listing: seq<Name>, now: int)
    requires Consistent(cfg, w) && !Live(w, h)
    ensures var t := Create(cfg, userId, h, key, now);
            CreatesOrConflicts(cfg, w, t, StartCreation(cfg, w, t, listing, now, NO_FAULTS))
  {
    hide StartCreation, CreatesOrConflicts;
    assert TerminalName(h) !in w.cluster.pods;
    assert TerminalName(h) in w.cluster.services ==> SecretName(TerminalName(h).hash) in w.cluster.secrets;
    StartCreationCore(cfg, w, userId, h, key, listing, now);
  }

  /** Every claim that a new pod of `t` would mount exists once its storage is prepared. */
  lemma PreparedClaims(cfg: Settings, w: World, t: TerminalPod, listing: seq<Name>, now: int)
    requires NamedFor(cfg, t, t.hash)
    ensures var c := PrepareStorage(cfg, w, t, listing, now, NO_FAULTS).world.cluster;
            && (cfg.mode == PerUser ==> UserPvcName(t.hash) in c.pvcs)
            && (cfg.mode == Shared || cfg.mode == SharedRwo ==> SharedPvcName in c.pvcs)
  {
  }

  lemma StartKeepsClaims(cfg: Settings, w: World, t: TerminalPod, listing: seq<Name>, now: int)
    ensures StartCreation(cfg, w, t, listing, now, NO_FAULTS).world.cluster.pvcs
            == PrepareStorage(cfg, w, t, listing, now, NO_FAULTS).world.cluster.pvcs
  {
  }

  /** A pod is only created once the claim it mounts exists. */
  lemma StartedPodHasItsClaim(
    cfg: Settings, w: World, userId: string, h: Hash, key: ApiKey, listing: seq<Name>, now: int)
    requires NothingWithoutSecret(w.cluster, h)
    ensures var a := StartCreation(cfg, w, Create(cfg, userId, h, key, now), listing, now, NO_FAULTS);
            a.Done? ==> TerminalName(h) in a.world.cluster.pods
                        && var claim := a.world.cluster.pods[TerminalName(h)].claim;
                           && (claim.Some? <==> cfg.mode != NoStorage)
                           && (claim.Some? ==> claim.value in a.world.cluster.pvcs)
  {
    hide PrepareStorage, StartCreation;
    var t := Create(cfg, userId, h, key, now);
    StartCreationCore(cfg, w, userId, h, key, listing, now);
    PreparedClaims(cfg, w, t, listing, now);
    StartKeepsClaims(cfg, w, t, listing, now);
  }

  /** `v` is `w` with the new live user of `t` and that user's three objects. */
  ghost predicate With(cfg: Settings, w: World, v: World, t: TerminalPod, p: Pod) {
    && v.pods == w.pods && w.creating.None? && v.creating.Some? && v.creating.value.terminal == t
    && v.cluster.pods == w.cluster.pods[TerminalName(t.hash) := p]
    && v.cluster.services == w.cluster.services[TerminalName(t.hash) := Service(cfg.app, t.hash)]
    && v.cluster.secrets == w.cluster.secrets[SecretName(t.hash) := BuildSecret(t.apiKey)]
  }

  lemma OneUserMore(cfg: Settings, w: World, v: World, t: TerminalPod, p: Pod)
    requires With(cfg, w, v, t, p) && t.hash !in w.pods
    ensures forall g :: Live(v, g) <==> Live(w, g) || g == t.hash
    ensures forall g :: Live(w, g) ==> g != t.hash && TerminalOf(v, g) == TerminalOf(w, g)
    ensures TerminalOf(v, t.hash) == t
  {
  }

  lemma WithKeepsTerminals(cfg: Settings, w: World, v: World, t: TerminalPod, p: Pod)
    requires TerminalsNamed(cfg, w) && t.hash !in w.pods && IsHash(t.hash) && NamedFor(cfg, t, t.hash)
    requires With(cfg, w, v, t, p)
    ensures TerminalsNamed(cfg, v)
  {
    hide NamedFor;
    OneUserMore(cfg, w, v, t, p);
  }

  lemma WithKeepsPods(cfg: Settings, w: World, v: World, t: TerminalPod, p: Pod)
    requires PodsBelong(cfg, w) && t.hash !in w.pods
    requires With(cfg, w, v, t, p) && ShapedFor(cfg, t.hash, p) && p.phase == Pending
    ensures PodsBelong(cfg, v) && (PodsPresent(w) ==> PodsPresent(v))
  {
    hide ShapedFor;
    OneUserMore(cfg, w, v, t, p);
  }

  lemma WithKeepsPairs(cfg: Settings, w: World, v: World, t: TerminalPod, p: Pod)
    requires PairsComplete(cfg, w) && t.hash !in w.pods && With(cfg, w, v, t, p)
    ensures PairsComplete(cfg, v) && (NoOrphans(w) ==> NoOrphans(v))
  {
    hide BuildSecret;
    OneUserMore(cfg, w, v, t, p);
  }

  lemma WithKeepsAgreement(cfg: Settings, w: World, v: World, t: TerminalPod, p: Pod)
    requires Consistent(cfg, w) && t.hash !in w.pods && IsHash(t.hash) && NamedFor(cfg, t, t.hash)
    requires With(cfg, w, v, t, p) && ShapedFor(cfg, t.hash, p) && p.phase == Pending
    ensures Consistent(cfg, v)
    ensures (NoOrphans(w) ==> NoOrphans(v)) && (PodsPresent(w) ==> PodsPresent(v))
  {
    hide With, TerminalsNamed, PodsBelong, PairsComplete, NoOrphans, PodsPresent, ShapedFor, NamedFor;
    WithKeepsTerminals(cfg, w, v, t, p);
    WithKeepsPods(cfg, w, v, t, p);
    WithKeepsPairs(cfg, w, v, t, p);
  }

  lemma StartKeepsAgreement(cfg: Settings, w: World, userId: string, h: Hash, key: ApiKey, listing: seq<Name>, now: int)
    requires Consistent(cfg, w) && w.creating.None? && h !in w.pods && IsHash(h)
    ensures var a := StartCreation(cfg, w, Create(cfg, userId, h, key, now), listing, now, NO_FAULTS);
            && Consistent(cfg, a.world)
            && (NoOrphans(w) ==> a.Done? && NoOrphans(a.world)) && (PodsPresent(w) ==> PodsPresent(a.world))
  {
    hide StartCreation, ShapedFor, TerminalsNamed, PodsBelong, PodsPresent;
    var t := Create(cfg, userId, h, key, now);
    var a := StartCreation(cfg, w, t, listing, now, NO_FAULTS);
    StartCreationClean(cfg, w, userId, h, key, listing, now);
    StartCreationShape(cfg, w, t, listing, now, NO_FAULTS);
    if a.Raised? {
      UntouchedTerminals(cfg, w, a.world);
    } else {
      WithKeepsAgreement(cfg, w, a.world, t, a.world.cluster.pods[TerminalName(h)]);
    }
  }

  lemma MakeRoomKeepsAgreement(cfg: Settings, w: World, order: seq<Hash>, now: int)
    requires Consistent(cfg, w) && Enumerates(order, w.pods.Keys)
    ensures var v := MakeRoom(cfg, w, order, now, NO_FAULTS);
            && Consistent(cfg, v) && v.pods.Keys <= w.pods.Keys && v.creating == w.creating
            && (NoOrphans(w) ==> NoOrphans(v)) && (PodsPresent(w) ==> PodsPresent(v))
  {
    MakeRoomShape(cfg, w, order, now, NO_FAULTS);
    if |w.pods| >= cfg.maxPods && w.pods != map[] {
      DropKeepsAgreement(cfg, w, Oldest(w.pods, order).value, now);
    }
  }

  lemma ConsistentIsTracked(cfg: Settings, w: World)
    requires Consistent(cfg, w)
    ensures Tracked(w)
  {
  }

  lemma TouchKeepsAgreement(cfg: Settings, w: World, h: Hash, now: int)
    requires Consistent(cfg, w) && h in w.pods
    ensures var v := Touched(cfg, w, h, now, NO_FAULTS);
            Consistent(cfg, v) && (NoOrphans(w) ==> NoOrphans(v)) && (PodsPresent(w) ==> PodsPresent(v))
  {
    hide Consistent, NoOrphans, PodsPresent;
    var v := Touched(cfg, w, h, now, NO_FAULTS);
    forall g | g in v.pods ensures exists at, ip :: v.pods[g] == w.pods[g].(lastActiveAt := at, podIp := ip) {
      assert v.pods[g] == w.pods[g].(lastActiveAt := v.pods[g].lastActiveAt, podIp := v.pods[g].podIp);
    }
    SameObjectsKeepAgreement(cfg, w, v);
  }

  lemma AskKeepsAgreement(cfg: Settings, w: World, r: Request)
    requires Consistent(cfg, w) && w.creating.None? && Enumerates(r.order, w.pods.Keys) && IsHash(r.hash)
    ensures var a := GetOrCreate(cfg, w, r, NO_FAULTS);
            && Consistent(cfg, a.world)
            && (NoOrphans(w) ==> a.Done? && NoOrphans(a.world)) && (PodsPresent(w) ==> PodsPresent(a.world))
  {
    hide Consistent, NoOrphans, PodsPresent, GetOrCreate, MakeRoom, StartCreation, Touched;
    ConsistentIsTracked(cfg, w);
    AskUnfolds(cfg, w, r, NO_FAULTS);
    if r.hash in w.pods {
      TouchKeepsAgreement(cfg, w, r.hash, r.now);
    } else {
      MakeRoomKeepsAgreement(cfg, w, r.order, r.now);
      var v := MakeRoom(cfg, w, r.order, r.now, NO_FAULTS);
      StartKeepsAgreement(cfg, v, r.userId, r.hash, r.key, r.listing, r.now);
    }
  }

  lemma FailKeepsAgreement(cfg: Settings, w: World, ready: bool, ip: Option<string>)
    requires Consistent(cfg, w) && w.creating.Some? && !(ready && Truthy(ip))
    ensures var v := FinishCreation(w, ready, ip, NO_FAULTS);
            Consistent(cfg, v) && (NoOrphans(w) ==> NoOrphans(v)) && (PodsPresent(w) ==> PodsPresent(v))
  {
    hide PodsBelong, PairsComplete, NoOrphans, PodsPresent;
    var v := FinishCreation(w, ready, ip, NO_FAULTS);
    var h := w.creating.value.terminal.hash;
    assert Live(w, h);
    forall g ensures Live(v, g) <==> Live(w, g) && g != h {}
    WithoutKeepsAgreement(cfg, w, v, h);
  }

  lemma SuccessKeepsAgreement(cfg: Settings, w: World, ready: bool, ip: Option<string>)
    requires Consistent(cfg, w) && w.creating.Some? && ready && Truthy(ip)
    ensures var v := FinishCreation(w, ready, ip, NO_FAULTS);
            Consistent(cfg, v) && (NoOrphans(w) ==> NoOrphans(v)) && (PodsPresent(w) ==> PodsPresent(v))
  {
    var v := FinishCreation(w, ready, ip, NO_FAULTS);
    var h := w.creating.value.terminal.hash;
    assert Live(w, h) && v.cluster == w.cluster;
    forall g ensures Live(v, g) <==> Live(w, g) {}
    forall g | Live(w, g)
      ensures TerminalOf(v, g).apiKey == TerminalOf(w, g).apiKey && NamedFor(cfg, TerminalOf(v, g), g)
    {}
  }

  lemma FinishKeepsAgreement(cfg: Settings, w: World, ready: bool, ip: Option<string>)
    requires Consistent(cfg, w) && w.creating.Some?
    ensures var v := FinishCreation(w, ready, ip, NO_FAULTS);
            Consistent(cfg, v) && (NoOrphans(w) ==> NoOrphans(v)) && (PodsPresent(w) ==> PodsPresent(v))
  {
    hide Consistent, NoOrphans, PodsPresent, FinishCreation;
    if ready && Truthy(ip) {
      SuccessKeepsAgreement(cfg, w, ready, ip);
    } else {
      FailKeepsAgreement(cfg, w, ready, ip);
    }
  }

  // ---------- Sweeps and the environment ----------

  lemma SweepKeepsAgreement(cfg: Settings, w: World, e: Event)
    requires Consistent(cfg, w) && Clean(cfg, w, e)
    requires e.IdleSweep? || e.HealthSweep? || e.PvcSweep? || e.Poll?
    ensures var v := Next(cfg, w, e);
            && Consistent(cfg, v)
            && (NoOrphans(w) ==> NoOrphans(v)) && (PodsPresent(w) ==> PodsPresent(v))
  {
    hide Consistent, NoOrphans, PodsPresent;
    match e
    case IdleSweep(order, now, _) =>
      DropAllKeepsAgreement(cfg, w, IdleAmong(cfg, w.pods, now, order), now);
    case HealthSweep(order, now, f) =>
      var v := RefreshAll(w, f);
      forall h | h in v.pods
        ensures exists at, ip :: v.pods[h] == w.pods[h].(lastActiveAt := at, podIp := ip)
      {
        assert v.pods[h] == w.pods[h].(lastActiveAt := v.pods[h].lastActiveAt, podIp := v.pods[h].podIp);
      }
      SameObjectsKeepAgreement(cfg, w, v);
      DropAllKeepsAgreement(cfg, v, UnhealthyAmong(w, f, order), now);
    case PvcSweep(_, _, _) => UntouchedTerminals(cfg, w, Next(cfg, w, e));
    case Poll => UntouchedTerminals(cfg, w, Next(cfg, w, e));
  }

  lemma UntouchedTerminals(cfg: Settings, w: World, v: World)
    requires Consistent(cfg, w) && v.pods == w.pods
    requires v.creating.Some? == w.creating.Some?
    requires v.creating.Some? ==> v.creating.value.terminal == w.creating.value.terminal
    requires SameObjects(w.cluster, v.cluster)
    ensures Consistent(cfg, v) && (NoOrphans(w) ==> NoOrphans(v)) && (PodsPresent(w) ==> PodsPresent(v))
  {
    forall h | h in v.pods
      ensures exists now, ip :: v.pods[h] == w.pods[h].(lastActiveAt := now, podIp := ip)
    {
      assert v.pods[h] == w.pods[h].(lastActiveAt := v.pods[h].lastActiveAt, podIp := v.pods[h].podIp);
    }
    SameObjectsKeepAgreement(cfg, w, v);
  }

  lemma EnvironmentKeepsAgreement(cfg: Settings, w: World, after: Cluster)
    requires Consistent(cfg, w) && EnvironmentMay(w.cluster, after)
    ensures var v := w.(cluster := after);
            && Consistent(cfg, v) && (NoOrphans(w) ==> NoOrphans(v))
            && (PodsPresent(w) && after.pods.Keys == w.cluster.pods.Keys ==> PodsPresent(v))
  {
    var v := w.(cluster := after);
    forall h ensures Live(v, h) <==> Live(w, h) {}
    forall h | Live(v, h) ensures TerminalOf(v, h) == TerminalOf(w, h) {}
  }

  /** Every fault-free step other than a crash keeps agreement, creates no orphan, and loses a pod
      object only if the environment deletes one. */
  lemma AgreementStep(cfg: Settings, w: World, e: Event)
    requires Consistent(cfg, w) && Clean(cfg, w, e) && !e.CrashAndRestart?
    ensures var v := Next(cfg, w, e);
            && Consistent(cfg, v) && (NoOrphans(w) ==> NoOrphans(v))
            && (PodsPresent(w) && NoKill(w, e) ==> PodsPresent(v))
  {
    hide Consistent, NoOrphans, PodsPresent, EnvironmentMay;
    match e
    case Ask(r, _) => AskKeepsAgreement(cfg, w, r);
    case Answer(ready, ip, _) => FinishKeepsAgreement(cfg, w, ready, ip);
    case Environment(after) => EnvironmentKeepsAgreement(cfg, w, after);
    case Poll => SweepKeepsAgreement(cfg, w, e);
    case IdleSweep(_, _, _) => SweepKeepsAgreement(cfg, w, e);
    case HealthSweep(_, _, _) => SweepKeepsAgreement(cfg, w, e);
    case PvcSweep(_, _, _) => SweepKeepsAgreement(cfg, w, e);
  }
}
