/** Crash and restart, and the theorems about whole fault-free runs. */
module Recovery {
  import opened Basics
  import opened Names
  import opened Base64
  import opened Terminals
  import opened ClusterModel
  import opened PodBuilder
  import opened Lifecycle
  import opened Runs
  import opened Tracking
  import opened Agreement

  // ---------- What reconciling does to an orderly cluster ----------

  predicate KeyReadable(c: Cluster, h: Hash) {
    SecretName(h) in c.secrets && c.secrets[SecretName(h)].apiKey.Some?
    && DecodeKey(c.secrets[SecretName(h)].apiKey.value).Some?
  }

  function KeyIn(c: Cluster, h: Hash): ApiKey
    requires KeyReadable(c, h)
  {
    DecodeKey(c.secrets[SecretName(h)].apiKey.value).value
  }

  ghost predicate Orderly(cfg: Settings, c: Cluster) {
    forall n :: n in c.pods ==>
      n.TerminalName? && IsHash(n.hash) && ShapedFor(cfg, n.hash, c.pods[n]) && KeyReadable(c, n.hash)
  }

  predicate IsUp(c: Cluster, n: Name) {
    n in c.pods && c.pods[n].phase == Phase.Running
  }

  /** Pod `n` was listed and is not Running, so start-up removes it and its service and secret. */
  ghost predicate Doomed(c: Cluster, names: seq<Name>, n: Name) {
    n in names && n in c.pods && c.pods[n].phase != Phase.Running
  }

  ghost predicate Listed(c: Cluster, names: seq<Name>) {
    NoDuplicates(names) && forall n :: n in names ==> n in c.pods
  }

  /** The terminals after the pods in `names` have been reconciled. */
  ghost predicate TerminalsReconciled(cfg: Settings, c: Cluster, names: seq<Name>, pods: map<Hash, TerminalPod>)
    requires Orderly(cfg, c)
  {
    && (forall h :: h in pods <==> TerminalName(h) in names && IsUp(c, TerminalName(h)))
    && (forall h :: h in pods && IsUp(c, TerminalName(h)) ==>
          pods[h] == Adopted(cfg, TerminalName(h), c.pods[TerminalName(h)], h, KeyIn(c, h), pods[h].lastActiveAt))
  }

  /** The cluster after the pods in `names` have been reconciled. */
  ghost predicate ObjectsReconciled(c: Cluster, names: seq<Name>, d: Cluster) {
    && d.pvcs == c.pvcs
    && (forall n :: n in d.pods <==> n in c.pods && !Doomed(c, names, n))
    && (forall n :: n in d.pods && n in c.pods ==> d.pods[n] == c.pods[n])
    && (forall n :: n in d.services <==> n in c.services && !Doomed(c, names, n))
    && (forall n :: n in d.services && n in c.services ==> d.services[n] == c.services[n])
    && (forall n :: n in d.secrets <==> n in c.secrets && !(n.SecretName? && Doomed(c, names, TerminalName(n.hash))))
    && (forall n :: n in d.secrets && n in c.secrets ==> d.secrets[n] == c.secrets[n])
  }

  ghost predicate Reconciled(cfg: Settings, c: Cluster, names: seq<Name>, v: World)
    requires Orderly(cfg, c)
  {
    && v.creating.None? && v.sharedNode.None?
    && TerminalsReconciled(cfg, c, names, v.pods) && ObjectsReconciled(c, names, v.cluster)
  }

  lemma DoomedGrows(c: Cluster, names: seq<Name>, n: Name)
    ensures forall m :: Doomed(c, names + [n], m) <==> Doomed(c, names, m) || (m == n && n in c.pods && !IsUp(c, n))
  {
  }

  lemma TerminalAdopted(cfg: Settings, c: Cluster, names: seq<Name>, n: Name, pods: map<Hash, TerminalPod>, now: int)
    requires Orderly(cfg, c) && TerminalsReconciled(cfg, c, names, pods) && IsUp(c, n) && n == TerminalName(n.hash)
    ensures var t := Adopted(cfg, n, c.pods[n], n.hash, KeyIn(c, n.hash), now);
            TerminalsReconciled(cfg, c, names + [n], pods[n.hash := t])
  {
  }

  lemma NothingAdopted(cfg: Settings, c: Cluster, names: seq<Name>, n: Name, pods: map<Hash, TerminalPod>)
    requires Orderly(cfg, c) && TerminalsReconciled(cfg, c, names, pods) && !IsUp(c, n)
    ensures TerminalsReconciled(cfg, c, names + [n], pods)
  {
  }

  lemma NothingRemoved(c: Cluster, names: seq<Name>, n: Name, d: Cluster)
    requires ObjectsReconciled(c, names, d) && IsUp(c, n)
    ensures ObjectsReconciled(c, names + [n], d)
  {
    DoomedGrows(c, names, n);
  }

  function WithoutObjects(d: Cluster, h: Hash): Cluster {
    d.(pods := d.pods - {TerminalName(h)},
       services := d.services - {TerminalName(h)},
       secrets := d.secrets - {SecretName(h)})
  }

  lemma ObjectsRemoved(c: Cluster, names: seq<Name>, h: Hash, d: Cluster)
    requires ObjectsReconciled(c, names, d) && TerminalName(h) in c.pods && !IsUp(c, TerminalName(h))
    ensures ObjectsReconciled(c, names + [TerminalName(h)], WithoutObjects(d, h))
  {
    DoomedGrows(c, names, TerminalName(h));
  }

  /** What one listed pod leads to, in a fault-free pass. */
  lemma ReconcileOneClean(cfg: Settings, c: Cluster, v: World, n: Name, now: int, key: ApiKey)
    requires Orderly(cfg, c) && n in c.pods
    requires SecretName(n.hash) in v.cluster.secrets
    requires v.cluster.secrets[SecretName(n.hash)] == c.secrets[SecretName(n.hash)]
    ensures var t := Adopted(cfg, n, c.pods[n], n.hash, KeyIn(c, n.hash), now);
            ReconcileOne(cfg, v, n, c.pods[n], now, key, NO_FAULTS)
            == Done(if IsUp(c, n) then v.(pods := v.pods[n.hash := t])
                    else v.(cluster := WithoutObjects(v.cluster, n.hash)))
  {
    assert c.pods[n].labels.user == Some(n.hash);
  }

  lemma ReconcileOneMore(cfg: Settings, c: Cluster, names: seq<Name>, n: Name, v: World, now: int, key: ApiKey)
    requires Orderly(cfg, c) && Reconciled(cfg, c, names, v) && n in c.pods && n !in names
    ensures var a := ReconcileOne(cfg, v, n, c.pods[n], now, key, NO_FAULTS);
            a.Done? && Reconciled(cfg, c, names + [n], a.world)
  {
    assert !Doomed(c, names, TerminalName(n.hash)) && SecretName(n.hash) in v.cluster.secrets;
    ReconcileOneClean(cfg, c, v, n, now, key);
    if IsUp(c, n) {
      TerminalAdopted(cfg, c, names, n, v.pods, now);
      NothingRemoved(c, names, n, v.cluster);
    } else {
      NothingAdopted(cfg, c, names, n, v.pods);
      ObjectsRemoved(c, names, n.hash, v.cluster);
    }
  }

  lemma NothingReconciled(cfg: Settings, c: Cluster)
    requires Orderly(cfg, c)
    ensures Reconciled(cfg, c, [], World(map[], None, None, c))
  {
  }

  lemma ListedPrefix(c: Cluster, names: seq<Name>)
    requires Listed(c, names) && names != []
    ensures var k := |names| - 1;
            && Listed(c, names[..k]) && names[k] !in names[..k] && names[..k] + [names[k]] == names
            && Snapshot(c, names)[..k] == Snapshot(c, names[..k]) && Snapshot(c, names)[k] == c.pods[names[k]]
  {
  }

  lemma {:induction false} ReconcileFirstClean(cfg: Settings, c: Cluster, names: seq<Name>, boot: Boot)
    requires Orderly(cfg, c) && Listed(c, names)
    requires |names| <= |boot.clock| && |names| <= |boot.keys|
    ensures var a := ReconcileFirst(cfg, World(map[], None, None, c), Snapshot(c, names), names, boot, NO_FAULTS);
            a.Done? && Reconciled(cfg, c, names, a.world)
  {
    if names == [] {
      NothingReconciled(cfg, c);
    } else {
      var k := |names| - 1;
      var before := names[..k];
      ListedPrefix(c, names);
      ReconcileFirstClean(cfg, c, before, boot);
      var a := ReconcileFirst(cfg, World(map[], None, None, c), Snapshot(c, before), before, boot, NO_FAULTS);
      ReconcileOneMore(cfg, c, before, names[k], a.world, boot.clock[k], boot.keys[k]);
    }
  }

  /** The terminals after a fault-free restart over the cluster `c`: exactly the Running pods are adopted. */
  ghost predicate Readopted(cfg: Settings, c: Cluster, pods: map<Hash, TerminalPod>)
    requires Orderly(cfg, c)
  {
    && (forall h :: h in pods <==> IsUp(c, TerminalName(h)))
    && (forall h :: h in pods && IsUp(c, TerminalName(h)) ==>
          pods[h] == Adopted(cfg, TerminalName(h), c.pods[TerminalName(h)], h, KeyIn(c, h), pods[h].lastActiveAt))
  }

  /** The objects after a fault-free restart over the cluster `c`: each pod that is not Running is gone
      together with its service and secret, and nothing else changes. */
  ghost predicate Cleared(c: Cluster, d: Cluster) {
    && d.pvcs == c.pvcs
    && (forall n :: n in d.pods <==> IsUp(c, n))
    && (forall n :: n in d.pods && n in c.pods ==> d.pods[n] == c.pods[n])
    && (forall n :: n in d.services <==> n in c.services && (n in c.pods ==> IsUp(c, n)))
    && (forall n :: n in d.services && n in c.services ==> d.services[n] == c.services[n])
    && (forall n :: n in d.secrets <==>
          n in c.secrets && (n.SecretName? && TerminalName(n.hash) in c.pods ==> IsUp(c, TerminalName(n.hash))))
    && (forall n :: n in d.secrets && n in c.secrets ==> d.secrets[n] == c.secrets[n])
  }

  ghost predicate Restarted(cfg: Settings, c: Cluster, v: World)
    requires Orderly(cfg, c)
  {
    v.creating.None? && v.sharedNode.None? && Readopted(cfg, c, v.pods) && Cleared(c, v.cluster)
  }

  lemma AllReadopted(cfg: Settings, c: Cluster, names: seq<Name>, pods: map<Hash, TerminalPod>)
    requires Orderly(cfg, c) && TerminalsReconciled(cfg, c, names, pods) && forall n :: n in c.pods ==> n in names
    ensures Readopted(cfg, c, pods)
  {
    hide Adopted, Orderly;
  }

  lemma AllCleared(c: Cluster, names: seq<Name>, d: Cluster)
    requires ObjectsReconciled(c, names, d) && forall n :: n in c.pods ==> n in names
    ensures Cleared(c, d)
  {
    forall n ensures Doomed(c, names, n) <==> n in c.pods && !IsUp(c, n) {}
    hide Doomed;
  }

  lemma ReconciledIsRestarted(cfg: Settings, c: Cluster, names: seq<Name>, v: World)
    requires Orderly(cfg, c) && Reconciled(cfg, c, names, v) && forall n :: n in c.pods ==> n in names
    ensures Restarted(cfg, c, v)
  {
    hide Orderly, TerminalsReconciled, ObjectsReconciled, Readopted, Cleared;
    AllReadopted(cfg, c, names, v.pods);
    AllCleared(c, names, v.cluster);
  }

  lemma RestartEffect(cfg: Settings, w: World, boot: Boot)
    requires Orderly(cfg, w.cluster) && BootFits(cfg, w.cluster, boot) && Complete(boot.listing, w.cluster)
    ensures Restarted(cfg, w.cluster, Restart(cfg, w, boot, NO_FAULTS))
  {
    hide Reconciled, Restarted;
    var c := w.cluster;
    var names := ListedPods(c, cfg.app, cfg.managedBy, boot.listing);
    ListedFit(c, cfg.app, cfg.managedBy, boot.listing);
    ListedPodsMembers(c, cfg.app, cfg.managedBy, boot.listing);
    ReconcileFirstClean(cfg, c, names, boot);
    ReconciledIsRestarted(cfg, c, names, Restart(cfg, w, boot, NO_FAULTS));
  }

  lemma ConsistentIsOrderly(cfg: Settings, w: World)
    requires Consistent(cfg, w)
    ensures Orderly(cfg, w.cluster)
    ensures forall h :: TerminalName(h) in w.cluster.pods ==>
              Live(w, h) && KeyIn(w.cluster, h) == TerminalOf(w, h).apiKey
  {
    forall n | n in w.cluster.pods
      ensures Live(w, n.hash) && KeyReadable(w.cluster, n.hash)
      ensures KeyIn(w.cluster, n.hash) == TerminalOf(w, n.hash).apiKey
    {
      KeyRoundTrip(TerminalOf(w, n.hash).apiKey);
    }
    forall h | TerminalName(h) in w.cluster.pods
      ensures Live(w, h) && KeyIn(w.cluster, h) == TerminalOf(w, h).apiKey
    {
      var n := TerminalName(h);
      assert Live(w, n.hash);
    }
  }

  // ---------- Crash recovery ----------

  lemma RestartedKeepsKeys(cfg: Settings, w: World, v: World)
    requires Consistent(cfg, w) && Orderly(cfg, w.cluster) && Restarted(cfg, w.cluster, v)
    ensures forall h :: h in v.pods ==> Live(w, h) && IsHash(h) && v.pods[h].apiKey == TerminalOf(w, h).apiKey
  {
    hide PairsComplete, PodsBelong;
    ConsistentIsOrderly(cfg, w);
    forall h | h in v.pods ensures Live(w, h) && IsHash(h) && v.pods[h].apiKey == TerminalOf(w, h).apiKey {
      assert IsUp(w.cluster, TerminalName(h));
    }
  }

  lemma RestartedTerminals(cfg: Settings, c: Cluster, v: World)
    requires Orderly(cfg, c) && Restarted(cfg, c, v) && forall h :: h in v.pods ==> IsHash(h)
    ensures TerminalsNamed(cfg, v) && PodsPresent(v)
  {
    hide Orderly;
    forall h | Live(v, h) ensures h in v.pods && IsUp(c, TerminalName(h)) {}
  }

  lemma RestartedObjects(cfg: Settings, w: World, v: World)
    requires Consistent(cfg, w) && Orderly(cfg, w.cluster) && Restarted(cfg, w.cluster, v)
    requires forall h :: h in v.pods ==> Live(w, h) && v.pods[h].apiKey == TerminalOf(w, h).apiKey
    ensures PodsBelong(cfg, v) && PairsComplete(cfg, v)
  {
    forall n | n in v.cluster.pods ensures n.TerminalName? && n.hash in v.pods {
      assert IsUp(w.cluster, n);
      assert n == TerminalName(n.hash);
    }
    forall h | Live(v, h)
      ensures TerminalName(h) in v.cluster.services && SecretName(h) in v.cluster.secrets
      ensures v.cluster.secrets[SecretName(h)] == BuildSecret(TerminalOf(v, h).apiKey)
    {
      assert IsUp(w.cluster, TerminalName(h));
    }
  }

  lemma RestartKeepsAgreement(cfg: Settings, w: World, boot: Boot)
    requires Consistent(cfg, w) && BootFits(cfg, w.cluster, boot) && Complete(boot.listing, w.cluster)
    ensures var v := Restart(cfg, w, boot, NO_FAULTS);
            Consistent(cfg, v) && PodsPresent(v)
  {
    hide Restarted, Restart, TerminalsNamed, PodsBelong, PairsComplete, PodsPresent, Orderly;
    ConsistentIsOrderly(cfg, w);
    RestartEffect(cfg, w, boot);
    RestartedKeepsKeys(cfg, w, Restart(cfg, w, boot, NO_FAULTS));
    RestartedTerminals(cfg, w.cluster, Restart(cfg, w, boot, NO_FAULTS));
    RestartedObjects(cfg, w, Restart(cfg, w, boot, NO_FAULTS));
  }

  /** `u` is the terminal adopted for the one that was `t`, from the pod `p`. */
  ghost predicate SameTerminal(cfg: Settings, t: TerminalPod, u: TerminalPod, p: Pod) {
    && u.hash == t.hash && u.userId == t.hash && u.apiKey == t.apiKey && u.state == PodState.Running
    && u.podName == t.podName && u.serviceName == t.serviceName && u.secretName == t.secretName
    && u.podIp == p.ip
    && (u.pvcName == t.pvcName <==> !((cfg.mode == Shared || cfg.mode == SharedRwo) && t.pvcName.Some?))
  }

  lemma AdoptedIsSame(cfg: Settings, t: TerminalPod, p: Pod, h: Hash, now: int)
    requires NamedFor(cfg, t, h)
    ensures SameTerminal(cfg, t, Adopted(cfg, TerminalName(h), p, h, t.apiKey, now), p)
  {
  }

  /** Crash at any yield point of a fault-free run and restart: the tracked users are exactly those
      whose pod is Running, only their pods remain, and each keeps hash, names and API key. The
      claim name also survives, except the meaningless one that shared modes put on a new terminal. */
  lemma CrashRecovery(cfg: Settings, w: World, boot: Boot)
    requires Consistent(cfg, w) && BootFits(cfg, w.cluster, boot) && Complete(boot.listing, w.cluster)
    ensures var v := Restart(cfg, w, boot, NO_FAULTS);
            && (forall h :: h in v.pods <==> IsUp(w.cluster, TerminalName(h)))
            && (forall n :: n in v.cluster.pods <==> IsUp(w.cluster, n))
            && (forall h :: h in v.pods && IsUp(w.cluster, TerminalName(h)) ==>
                  Live(w, h) && SameTerminal(cfg, TerminalOf(w, h), v.pods[h], w.cluster.pods[TerminalName(h)]))
  {
    hide Restart, SameTerminal, Adopted, Complete, PodsBelong, PairsComplete;
    ConsistentIsOrderly(cfg, w);
    RestartEffect(cfg, w, boot);
    var v := Restart(cfg, w, boot, NO_FAULTS);
    forall h | h in v.pods && IsUp(w.cluster, TerminalName(h))
      ensures Live(w, h) && SameTerminal(cfg, TerminalOf(w, h), v.pods[h], w.cluster.pods[TerminalName(h)])
    {
      AdoptedIsSame(cfg, TerminalOf(w, h), w.cluster.pods[TerminalName(h)], h, v.pods[h].lastActiveAt);
    }
  }

  /** After a restart services and secrets are exactly those of the tracked users if and only if no
      service had lost its pod object before the crash. */
  lemma RestartLeavesNoOrphansIff(cfg: Settings, w: World, boot: Boot)
    requires Consistent(cfg, w) && BootFits(cfg, w.cluster, boot) && Complete(boot.listing, w.cluster)
    ensures NoOrphans(Restart(cfg, w, boot, NO_FAULTS)) <==> forall n :: n in w.cluster.services ==> n in w.cluster.pods
  {
    ConsistentIsOrderly(cfg, w);
    RestartEffect(cfg, w, boot);
    var v := Restart(cfg, w, boot, NO_FAULTS);
    forall n | n in w.cluster.services && n !in w.cluster.pods ensures n in v.cluster.services && !Live(v, n.hash) {
      assert n == TerminalName(n.hash);
    }
    forall n | n in v.cluster.services && n in w.cluster.pods ensures n.TerminalName? && Live(v, n.hash) {
      assert n == TerminalName(n.hash);
    }
  }

  // ---------- Whole runs ----------

  lemma AnyCleanStep(cfg: Settings, w: World, e: Event)
    requires Consistent(cfg, w) && Clean(cfg, w, e)
    ensures var v := Next(cfg, w, e);
            && Consistent(cfg, v)
            && (NoOrphans(w) && !e.CrashAndRestart? ==> NoOrphans(v))
            && (NoOrphans(w) && PodsPresent(w) && NoKill(w, e) ==> NoOrphans(v) && PodsPresent(v))
  {
    hide Restart, GetOrCreate, FinishCreation, CleanupIdle, CheckHealth;
    if e.CrashAndRestart? {
      RestartKeepsAgreement(cfg, w, e.boot);
      RestartLeavesNoOrphansIff(cfg, w, e.boot);
      forall n | NoOrphans(w) && PodsPresent(w) && n in w.cluster.services ensures n in w.cluster.pods {
        assert n == TerminalName(n.hash) && Live(w, n.hash);
      }
    } else {
      AgreementStep(cfg, w, e);
    }
  }

  /** Starting over an empty namespace, everything agrees. */
  lemma EmptyNamespaceAgrees(cfg: Settings, w: World)
    requires Initial(w) && w.cluster.pods == map[] && w.cluster.services == map[] && w.cluster.secrets == map[]
    ensures Consistent(cfg, w) && NoOrphans(w) && PodsPresent(w)
  {
  }

  /** In every fault-free run, restarts and killed pods included: pods belong to live users, services
      and secrets are paired, and every live user has the pair with the key of its terminal. */
  lemma {:induction false} ClusterAgreement(cfg: Settings, ws: seq<World>, es: seq<Event>)
    requires IsCleanRun(cfg, ws, es) && Consistent(cfg, ws[0])
    ensures forall i :: 0 <= i < |ws| ==> Consistent(cfg, ws[i])
    decreases |es|
  {
    hide Consistent, Next, Enabled, NoOrphans, PodsPresent, NoKill;
    if es == [] {
    } else {
      RunPrefix(cfg, ws, es);
      ClusterAgreement(cfg, ws[..|ws| - 1], es[..|es| - 1]);
      AnyCleanStep(cfg, ws[|es| - 1], es[|es| - 1]);
    }
  }

  // ---------- Users whose objects outlive them ----------

  /** A user whose service and secret outlived the pod and the process that knew it. */
  ghost predicate Orphaned(w: World, h: Hash) {
    !Live(w, h) && TerminalName(h) in w.cluster.services
  }

  lemma NoPodOfOrphan(cfg: Settings, w: World, h: Hash)
    requires Consistent(cfg, w) && Orphaned(w, h)
    ensures TerminalName(h) !in w.cluster.pods
  {
  }

  /** A service without a pod object stays, and nobody adopts its user. */
  lemma RestartForgetsKilled(cfg: Settings, w: World, boot: Boot, h: Hash)
    requires Consistent(cfg, w) && BootFits(cfg, w.cluster, boot) && Complete(boot.listing, w.cluster)
    requires TerminalName(h) in w.cluster.services && TerminalName(h) !in w.cluster.pods
    ensures Orphaned(Restart(cfg, w, boot, NO_FAULTS), h)
  {
    hide Consistent, Restart;
    ConsistentIsOrderly(cfg, w);
    RestartEffect(cfg, w, boot);
  }

  /** Nothing ever removes an orphaned pair: it survives every fault-free step. */
  lemma OrphanStep(cfg: Settings, w: World, e: Event, h: Hash)
    requires Consistent(cfg, w) && Clean(cfg, w, e) && Orphaned(w, h)
    ensures Orphaned(Next(cfg, w, e), h)
    ensures e.Ask? && e.request.hash == h ==> GetOrCreate(cfg, w, e.request, e.faults).Raised?
  {
    hide Consistent, GetOrCreate, FinishCreation, Restart, DropAll;
    match e
    case Ask(r, _) => AskSparesOrphan(cfg, w, r, h);
    case Poll =>
    case Answer(ready, ip, _) => FinishSparesOrphan(cfg, w, ready, ip, h);
    case IdleSweep(order, now, _) => DropAllSparesOrphan(cfg, w, IdleAmong(cfg, w.pods, now, order), now, h);
    case HealthSweep(order, now, f) =>
      RefreshSparesOrphan(cfg, w, f, h);
      DropAllSparesOrphan(cfg, RefreshAll(w, f), UnhealthyAmong(w, f, order), now, h);
    case PvcSweep(_, _, _) =>
    case Environment(_) =>
    case CrashAndRestart(boot, _) =>
      NoPodOfOrphan(cfg, w, h);
      RestartForgetsKilled(cfg, w, boot, h);
  }

  lemma FinishSparesOrphan(cfg: Settings, w: World, ready: bool, ip: Option<string>, h: Hash)
    requires Consistent(cfg, w) && Orphaned(w, h) && w.creating.Some?
    ensures Orphaned(FinishCreation(w, ready, ip, NO_FAULTS), h)
  {
    hide PodsBelong, PairsComplete;
    assert Live(w, w.creating.value.terminal.hash);
  }

  lemma RefreshSparesOrphan(cfg: Settings, w: World, f: Faults, h: Hash)
    requires Consistent(cfg, w) && Orphaned(w, h)
    ensures Orphaned(RefreshAll(w, f), h) && Consistent(cfg, RefreshAll(w, f))
  {
    var v := RefreshAll(w, f);
    forall g | g in v.pods ensures exists at, ip :: v.pods[g] == w.pods[g].(lastActiveAt := at, podIp := ip) {
      assert v.pods[g] == w.pods[g].(lastActiveAt := v.pods[g].lastActiveAt, podIp := v.pods[g].podIp);
    }
    SameObjectsKeepAgreement(cfg, w, v);
  }

  lemma WithoutSparesOrphan(w: World, v: World, g: Hash, h: Hash)
    requires Without(w, v, g) && Orphaned(w, h)
    ensures Orphaned(v, h)
  {
  }

  lemma {:induction false} DropAllSparesOrphan(cfg: Settings, w: World, hs: seq<Hash>, now: int, h: Hash)
    requires Consistent(cfg, w) && Orphaned(w, h)
    ensures Orphaned(DropAll(cfg, w, hs, now, NO_FAULTS), h)
  {
    hide Consistent, Orphaned, Without, Drop;
    if hs == [] {
    } else {
      DropAllSparesOrphan(cfg, w, hs[..|hs| - 1], now, h);
      DropAllKeepsAgreement(cfg, w, hs[..|hs| - 1], now);
      var v := DropAll(cfg, w, hs[..|hs| - 1], now, NO_FAULTS);
      var last := hs[|hs| - 1];
      if last in v.pods {
        DropKeepsAgreement(cfg, v, last, now);
        WithoutSparesOrphan(v, Drop(cfg, v, last, now, NO_FAULTS), last, h);
      } else {
        DropMissing(cfg, v, last, now);
      }
    }
  }

  lemma DropMissing(cfg: Settings, w: World, h: Hash, now: int)
    requires h !in w.pods
    ensures Drop(cfg, w, h, now, NO_FAULTS) == w
  {
  }

  lemma MakeRoomSparesOrphan(cfg: Settings, w: World, order: seq<Hash>, now: int, h: Hash)
    requires Consistent(cfg, w) && Orphaned(w, h)
    ensures Orphaned(MakeRoom(cfg, w, order, now, NO_FAULTS), h)
  {
    hide Consistent, Orphaned, Without, Drop;
    if |w.pods| >= cfg.maxPods && Oldest(w.pods, order).Some? {
      var oldest := Oldest(w.pods, order).value;
      DropKeepsAgreement(cfg, w, oldest, now);
      WithoutSparesOrphan(w, Drop(cfg, w, oldest, now, NO_FAULTS), oldest, h);
    }
  }

  lemma StartSparesOrphan(
    cfg: Settings, w: World, userId: string, g: Hash, key: ApiKey, listing: seq<Name>, now: int, h: Hash)
    requires Consistent(cfg, w) && Orphaned(w, h) && w.creating.None? && g !in w.pods
    ensures var a := StartCreation(cfg, w, Create(cfg, userId, g, key, now), listing, now, NO_FAULTS);
            Orphaned(a.world, h) && (g == h ==> a.Raised?)
  {
    hide StartCreation;
    StartCreationClean(cfg, w, userId, g, key, listing, now);
    StartCreationShape(cfg, w, Create(cfg, userId, g, key, now), listing, now, NO_FAULTS);
  }

  lemma AskSparesOrphan(cfg: Settings, w: World, r: Request, h: Hash)
    requires Consistent(cfg, w) && Orphaned(w, h)
    requires w.creating.None? && Enumerates(r.order, w.pods.Keys) && IsHash(r.hash)
    ensures Orphaned(GetOrCreate(cfg, w, r, NO_FAULTS).world, h)
    ensures r.hash == h ==> GetOrCreate(cfg, w, r, NO_FAULTS).Raised?
  {
    hide Consistent, GetOrCreate, StartCreation, MakeRoom;
    ConsistentIsTracked(cfg, w);
    AskUnfolds(cfg, w, r, NO_FAULTS);
    if r.hash !in w.pods {
      MakeRoomKeepsAgreement(cfg, w, r.order, r.now);
      MakeRoomSparesOrphan(cfg, w, r.order, r.now, h);
      StartSparesOrphan(cfg, MakeRoom(cfg, w, r.order, r.now, NO_FAULTS), r.userId, r.hash, r.key, r.listing, r.now, h);
    }
  }

  /** Once orphaned, a user is locked out: in every fault-free continuation, restarts included, each
      of that user's requests fails. */
  lemma {:induction false} OrphanIsLockedOut(cfg: Settings, ws: seq<World>, es: seq<Event>, h: Hash, i: nat)
    requires IsCleanRun(cfg, ws, es) && Consistent(cfg, ws[0]) && Orphaned(ws[0], h) && i < |ws|
    ensures Orphaned(ws[i], h)
    ensures i < |es| && es[i].Ask? && es[i].request.hash == h
            ==> GetOrCreate(cfg, ws[i], es[i].request, es[i].faults).Raised?
    decreases i
  {
    hide Consistent, Next, Orphaned, GetOrCreate, Enabled;
    ClusterAgreement(cfg, ws, es);
    if i > 0 {
      OrphanIsLockedOut(cfg, ws, es, h, i - 1);
      assert Clean(cfg, ws[i - 1], es[i - 1]) && ws[i - 1 + 1] == Next(cfg, ws[i - 1], es[i - 1]);
      OrphanStep(cfg, ws[i - 1], es[i - 1], h);
    }
    if i < |es| {
      assert Clean(cfg, ws[i], es[i]);
      OrphanStep(cfg, ws[i], es[i], h);
    }
  }

  /** How a user becomes orphaned: the pod object of a live user is deleted by the environment, and
      the proxy restarts before its health sweep notices. */
  lemma KillThenCrashOrphans(cfg: Settings, w: World, h: Hash, boot: Boot) returns (killed: Cluster)
    requires Consistent(cfg, w) && Live(w, h) && |boot.clock| >= |boot.listing| && |boot.keys| >= |boot.listing|
    requires Complete(boot.listing, w.cluster)
    ensures killed == w.cluster.(pods := w.cluster.pods - {TerminalName(h)}) && Clean(cfg, w, Environment(killed))
    ensures var v := w.(cluster := killed);
            && Clean(cfg, v, CrashAndRestart(boot, NO_FAULTS))
            && Orphaned(Next(cfg, v, CrashAndRestart(boot, NO_FAULTS)), h)
  {
    hide EnvironmentMay, Restart, TerminalsNamed, PodsBelong;
    killed := w.cluster.(pods := w.cluster.pods - {TerminalName(h)});
    EnvironmentMayKill(cfg, w, h);
    EnvironmentKeepsAgreement(cfg, w, killed);
    var v := w.(cluster := killed);
    assert TerminalName(h) in killed.services;
    RestartForgetsKilled(cfg, v, boot, h);
  }

  lemma EnvironmentMayKill(cfg: Settings, w: World, h: Hash)
    requires Consistent(cfg, w)
    ensures EnvironmentMay(w.cluster, w.cluster.(pods := w.cluster.pods - {TerminalName(h)}))
  {
    hide TerminalsNamed, PairsComplete;
  }

  // ---------- When services and secrets are exact ----------

  ghost predicate EveryServiceHasItsPod(c: Cluster) {
    forall n :: n in c.services ==> n in c.pods
  }

  /** One fault-free step: a restart leaves no orphan exactly if every service has its pod, and every
      other step neither makes nor removes one. */
  lemma NoOrphansStepIff(cfg: Settings, w: World, e: Event)
    requires Consistent(cfg, w) && Clean(cfg, w, e)
    ensures NoOrphans(Next(cfg, w, e)) <==> NoOrphans(w) && (e.CrashAndRestart? ==> EveryServiceHasItsPod(w.cluster))
  {
    hide Next, Clean;
    AnyCleanStep(cfg, w, e);
    if !NoOrphans(w) {
      var n :| n in w.cluster.services && !(n.TerminalName? && Live(w, n.hash));
      assert n == TerminalName(n.hash);
      OrphanStep(cfg, w, e, n.hash);
    }
    if e.CrashAndRestart? {
      CleanRestart(cfg, w, e);
      RestartLeavesNoOrphansIff(cfg, w, e.boot);
    }
  }

  lemma CleanRestart(cfg: Settings, w: World, e: Event)
    requires Clean(cfg, w, e) && e.CrashAndRestart?
    ensures BootFits(cfg, w.cluster, e.boot) && Complete(e.boot.listing, w.cluster)
    ensures Next(cfg, w, e) == Restart(cfg, w, e.boot, NO_FAULTS)
  {
    hide Restart;
  }

  /** Each restart before state `i` found the pod of every service. */
  ghost predicate RestartsFindPods(ws: seq<World>, es: seq<Event>, i: nat)
    requires i <= |es| <= |ws|
  {
    forall j :: 0 <= j < i && es[j].CrashAndRestart? ==> EveryServiceHasItsPod(ws[j].cluster)
  }

  /** In every fault-free run, pods killed and restarts included: there is no orphan exactly if each
      restart so far found the pod of every service. */
  lemma {:induction false} NoOrphansIff(cfg: Settings, ws: seq<World>, es: seq<Event>, i: nat)
    requires IsCleanRun(cfg, ws, es) && Consistent(cfg, ws[0]) && NoOrphans(ws[0]) && i < |ws|
    ensures NoOrphans(ws[i]) <==> RestartsFindPods(ws, es, i)
    decreases i
  {
    hide Consistent, NoOrphans, Next, Enabled, EveryServiceHasItsPod;
    if i == 0 {
    } else {
      NoOrphansIff(cfg, ws, es, i - 1);
      ClusterAgreement(cfg, ws, es);
      assert Clean(cfg, ws[i - 1], es[i - 1]) && ws[i - 1 + 1] == Next(cfg, ws[i - 1], es[i - 1]);
      NoOrphansStepIff(cfg, ws[i - 1], es[i - 1]);
    }
  }

  /** Services and secrets are those of the live users, one each. */
  ghost predicate Exact(w: World) {
    && (forall n :: n in w.cluster.services <==> n.TerminalName? && Live(w, n.hash))
    && (forall n :: n in w.cluster.secrets <==> n.SecretName? && Live(w, n.hash))
  }

  lemma ExactIffNoOrphans(cfg: Settings, w: World)
    requires Consistent(cfg, w)
    ensures Exact(w) <==> NoOrphans(w)
  {
    if NoOrphans(w) {
      forall n ensures n in w.cluster.services <==> n.TerminalName? && Live(w, n.hash) {
        if n.TerminalName? && Live(w, n.hash) {
          assert n == TerminalName(n.hash);
        }
      }
      forall n ensures n in w.cluster.secrets <==> n.SecretName? && Live(w, n.hash) {
        if n.SecretName? && Live(w, n.hash) {
          assert n == SecretName(n.hash);
        }
        if n in w.cluster.secrets {
          assert TerminalName(n.hash) in w.cluster.services;
        }
      }
    }
  }

  /** In every fault-free run pods belong to live users, and services and secrets are exactly those of
      the live users if and only if each restart so far found the pod of every service. */
  lemma ObjectsAreExact(cfg: Settings, ws: seq<World>, es: seq<Event>, i: nat)
    requires IsCleanRun(cfg, ws, es) && Consistent(cfg, ws[0]) && NoOrphans(ws[0]) && i < |ws|
    ensures Exact(ws[i]) <==> RestartsFindPods(ws, es, i)
    ensures forall n :: n in ws[i].cluster.pods ==> n.TerminalName? && Live(ws[i], n.hash)
  {
    hide IsCleanRun, NoOrphans, Exact, RestartsFindPods, Live;
    ClusterAgreement(cfg, ws, es);
    NoOrphansIff(cfg, ws, es, i);
    ExactIffNoOrphans(cfg, ws[i]);
  }

  ghost predicate NeverKills(ws: seq<World>, es: seq<Event>)
    requires |es| <= |ws|
  {
    forall j :: 0 <= j < |es| ==> NoKill(ws[j], es[j])
  }

  lemma PresentPodsServeAll(cfg: Settings, w: World)
    requires Consistent(cfg, w) && NoOrphans(w) && PodsPresent(w)
    ensures EveryServiceHasItsPod(w.cluster)
  {
    forall n | n in w.cluster.services ensures n in w.cluster.pods {
      assert n == TerminalName(n.hash) && Live(w, n.hash);
    }
  }

  /** If no pod is killed, every restart finds every pod, and every live user has a pod. */
  lemma {:induction false} UnkilledPodsAreFound(cfg: Settings, ws: seq<World>, es: seq<Event>, i: nat)
    requires IsCleanRun(cfg, ws, es) && Consistent(cfg, ws[0]) && NoOrphans(ws[0]) && PodsPresent(ws[0])
    requires NeverKills(ws, es) && i < |ws|
    ensures RestartsFindPods(ws, es, i) && NoOrphans(ws[i]) && PodsPresent(ws[i])
    decreases i
  {
    hide Consistent, NoOrphans, PodsPresent, Next, Enabled, NoKill, EveryServiceHasItsPod;
    if i == 0 {
    } else {
      UnkilledPodsAreFound(cfg, ws, es, i - 1);
      ClusterAgreement(cfg, ws, es);
      assert Clean(cfg, ws[i - 1], es[i - 1]) && ws[i - 1 + 1] == Next(cfg, ws[i - 1], es[i - 1]);
      AnyCleanStep(cfg, ws[i - 1], es[i - 1]);
      PresentPodsServeAll(cfg, ws[i - 1]);
    }
  }

  /** The two simple cases: a run that never crashes, even if pods are killed, and a run whose pods are
      never killed, even if it crashes. */
  lemma UndisturbedRunsAreExact(cfg: Settings, ws: seq<World>, es: seq<Event>, i: nat)
    requires IsCleanRun(cfg, ws, es) && Consistent(cfg, ws[0]) && NoOrphans(ws[0]) && PodsPresent(ws[0])
    requires (forall j :: 0 <= j < |es| ==> !es[j].CrashAndRestart?) || NeverKills(ws, es)
    requires i < |ws|
    ensures Exact(ws[i])
    ensures NeverKills(ws, es) ==> forall h :: Live(ws[i], h) ==> TerminalName(h) in ws[i].cluster.pods
  {
    hide Consistent, NoOrphans, Next, Enabled, NoKill, Live, Exact;
    ObjectsAreExact(cfg, ws, es, i);
    if NeverKills(ws, es) {
      UnkilledPodsAreFound(cfg, ws, es, i);
    }
  }

  /** A fault-free request fails when it starts if and only if its user is orphaned. */
  lemma RequestFailsIffOrphaned(cfg: Settings, w: World, r: Request)
    requires Consistent(cfg, w) && w.creating.None? && Enumerates(r.order, w.pods.Keys) && IsHash(r.hash)
    ensures GetOrCreate(cfg, w, r, NO_FAULTS).Raised? <==> Orphaned(w, r.hash)
  {
    hide Consistent, GetOrCreate, StartCreation, MakeRoom;
    ConsistentIsTracked(cfg, w);
    AskUnfolds(cfg, w, r, NO_FAULTS);
    if Orphaned(w, r.hash) {
      AskSparesOrphan(cfg, w, r, r.hash);
    } else if r.hash !in w.pods {
      var v := MakeRoom(cfg, w, r.order, r.now, NO_FAULTS);
      MakeRoomKeepsAgreement(cfg, w, r.order, r.now);
      MakeRoomMakesNoOrphan(cfg, w, r.order, r.now, r.hash);
      StartCreationClean(cfg, v, r.userId, r.hash, r.key, r.listing, r.now);
      SecretMeansOrphan(cfg, v, r.hash);
    }
  }

  lemma MakeRoomMakesNoOrphan(cfg: Settings, w: World, order: seq<Hash>, now: int, h: Hash)
    requires Consistent(cfg, w) && !Live(w, h) && !Orphaned(w, h)
    ensures !Orphaned(MakeRoom(cfg, w, order, now, NO_FAULTS), h)
  {
    if |w.pods| >= cfg.maxPods && Oldest(w.pods, order).Some? {
      DropKeepsAgreement(cfg, w, Oldest(w.pods, order).value, now);
    }
  }

  lemma SecretMeansOrphan(cfg: Settings, w: World, h: Hash)
    requires Consistent(cfg, w) && !Live(w, h)
    ensures SecretName(h) in w.cluster.secrets <==> Orphaned(w, h)
  {
    if SecretName(h) in w.cluster.secrets {
      assert SecretName(h).hash == h;
    }
  }

  /** In every fault-free run a request fails when it starts if and only if its user is orphaned; in
      particular, as long as each restart found the pod of every service, no secret, pod or service
      creation ever meets an existing name. */
  lemma NoCreationConflicts(cfg: Settings, ws: seq<World>, es: seq<Event>, i: nat)
    requires IsCleanRun(cfg, ws, es) && Consistent(cfg, ws[0]) && NoOrphans(ws[0])
    requires i < |es| && es[i].Ask?
    ensures GetOrCreate(cfg, ws[i], es[i].request, es[i].faults).Raised? <==> Orphaned(ws[i], es[i].request.hash)
    ensures RestartsFindPods(ws, es, i) ==> GetOrCreate(cfg, ws[i], es[i].request, es[i].faults).Done?
  {
    hide Consistent, Next, GetOrCreate, RestartsFindPods;
    ClusterAgreement(cfg, ws, es);
    NoOrphansIff(cfg, ws, es, i);
    assert Clean(cfg, ws[i], es[i]);
    RequestFailsIffOrphaned(cfg, ws[i], es[i].request);
  }

  /** Crash at any yield point of any fault-free run and restart: the tracked users, each with the key
      from before, are exactly the pods; and they are exactly the services and exactly the secrets if
      and only if every service had its pod before the crash. */
  lemma RecoveryRestoresCorrespondence(cfg: Settings, ws: seq<World>, es: seq<Event>, i: nat, boot: Boot)
    requires IsCleanRun(cfg, ws, es) && Consistent(cfg, ws[0])
    requires i < |ws| && BootFits(cfg, ws[i].cluster, boot) && Complete(boot.listing, ws[i].cluster)
    ensures var v := Restart(cfg, ws[i], boot, NO_FAULTS);
            && (forall h :: h in v.pods <==> IsUp(ws[i].cluster, TerminalName(h)))
            && (forall n :: n in v.cluster.pods <==> n.TerminalName? && n.hash in v.pods)
            && (forall h :: h in v.pods ==> Live(ws[i], h) && v.pods[h].apiKey == TerminalOf(ws[i], h).apiKey)
            && (Exact(v) <==> EveryServiceHasItsPod(ws[i].cluster))
            && v.creating.None?
  {
    hide Consistent, Restart, Exact, NoOrphans;
    ClusterAgreement(cfg, ws, es);
    CrashRecovery(cfg, ws[i], boot);
    RestartKeepsAgreement(cfg, ws[i], boot);
    RestartLeavesNoOrphansIff(cfg, ws[i], boot);
    RestartTracked(cfg, ws[i], boot, NO_FAULTS);
    var v := Restart(cfg, ws[i], boot, NO_FAULTS);
    ExactIffNoOrphans(cfg, v);
    ConsistentPods(cfg, v);
  }

  lemma ConsistentPods(cfg: Settings, w: World)
    requires Consistent(cfg, w) && w.creating.None?
    ensures forall n :: n in w.cluster.pods ==> n.TerminalName? && n.hash in w.pods
  {
  }

  // ---------- Routing ----------

  /** The service of terminal `t` selects its pod and no other, and pod and secret carry its hash and key. */
  ghost predicate RoutedTo(c: Cluster, t: TerminalPod) {
    && t.serviceName in c.services && t.podName in c.pods && t.secretName in c.secrets
    && (forall n :: n in c.pods ==> (c.services[t.serviceName].Selects(c.pods[n]) <==> n == t.podName))
    && c.pods[t.podName].labels.user == Some(t.hash)
    && c.pods[t.podName].keyRef == t.secretName
    && c.secrets[t.secretName].apiKey.Some?
    && DecodeKey(c.secrets[t.secretName].apiKey.value) == Some(t.apiKey)
  }

  lemma RoutedIffPodExists(cfg: Settings, w: World, h: Hash)
    requires Consistent(cfg, w) && Live(w, h)
    ensures RoutedTo(w.cluster, TerminalOf(w, h)) <==> TerminalName(h) in w.cluster.pods
  {
    KeyRoundTrip(TerminalOf(w, h).apiKey);
  }

  /** In every fault-free run the service named by a tracked terminal selects exactly one pod, the
      terminal's own, which has the same user hash and reads its key from the secret that decodes to
      the terminal's key, if and only if that pod object has not been deleted from outside; which it
      never is if no pod is killed. */
  lemma RoutingAgreement(cfg: Settings, ws: seq<World>, es: seq<Event>, i: nat, h: Hash)
    requires IsCleanRun(cfg, ws, es) && Consistent(cfg, ws[0]) && i < |ws| && h in ws[i].pods
    ensures ws[i].pods[h].hash == h
    ensures RoutedTo(ws[i].cluster, ws[i].pods[h]) <==> TerminalName(h) in ws[i].cluster.pods
    ensures NoOrphans(ws[0]) && PodsPresent(ws[0]) && NeverKills(ws, es) ==> RoutedTo(ws[i].cluster, ws[i].pods[h])
  {
    hide Enabled, Next, RoutedTo, NoOrphans, NeverKills, Consistent, RestartsFindPods;
    ClusterAgreement(cfg, ws, es);
    ConsistentIsTracked(cfg, ws[i]);
    RoutedIffPodExists(cfg, ws[i], h);
    if NoOrphans(ws[0]) && PodsPresent(ws[0]) && NeverKills(ws, es) {
      UnkilledPodsAreFound(cfg, ws, es, i);
      assert Live(ws[i], h);
    }
  }

  /** Two pods never share a directory of a claim. */
  lemma PodsNeverShareStorage(cfg: Settings, ws: seq<World>, es: seq<Event>, i: nat, m: Name, n: Name)
    requires IsCleanRun(cfg, ws, es) && Consistent(cfg, ws[0]) && i < |ws|
    requires m in ws[i].cluster.pods && n in ws[i].cluster.pods && m != n && ws[i].cluster.pods[m].claim.Some?
    ensures var p, q := ws[i].cluster.pods[m], ws[i].cluster.pods[n];
            (p.claim, p.subPath) != (q.claim, q.subPath)
  {
    ClusterAgreement(cfg, ws, es);
    StorageIsIsolated(cfg, m.hash, n.hash, ws[i].cluster.pods[m], ws[i].cluster.pods[n]);
  }

  // ---------- Capacity of the cluster ----------

  ghost function LiveUsers(w: World): set<Hash> {
    w.pods.Keys + if w.creating.Some? then {w.creating.value.terminal.hash} else {}
  }

  lemma {:induction false} NamesAreCounted(names: set<Name>, users: set<Hash>)
    requires forall n :: n in names ==> n.TerminalName? && n.hash in users
    ensures |names| <= |users|
    decreases |names|
  {
    if names == {} {
    } else {
      var n :| n in names;
      forall m | m in names - {n} ensures m.TerminalName? && m.hash in users - {n.hash} {
        assert m != n;
      }
      NamesAreCounted(names - {n}, users - {n.hash});
    }
  }

  lemma PodsAreCounted(cfg: Settings, w: World)
    requires Consistent(cfg, w)
    ensures |w.cluster.pods| <= Load(w)
  {
    NamesAreCounted(w.cluster.pods.Keys, LiveUsers(w));
    assert |w.cluster.pods| == |w.cluster.pods.Keys| && |w.pods| == |w.pods.Keys|;
  }

  lemma RestartWithinPods(cfg: Settings, w: World, boot: Boot)
    requires Consistent(cfg, w) && BootFits(cfg, w.cluster, boot) && Complete(boot.listing, w.cluster)
    ensures Load(Restart(cfg, w, boot, NO_FAULTS)) <= |w.cluster.pods|
  {
    CrashRecovery(cfg, w, boot);
    RestartTracked(cfg, w, boot, NO_FAULTS);
    var v := Restart(cfg, w, boot, NO_FAULTS);
    UsersAreCounted(v.pods.Keys, w.cluster.pods.Keys);
    assert |v.pods| == |v.pods.Keys| && |w.cluster.pods| == |w.cluster.pods.Keys|;
  }

  lemma {:induction false} UsersAreCounted(users: set<Hash>, names: set<Name>)
    requires forall h :: h in users ==> TerminalName(h) in names
    ensures |users| <= |names|
    decreases |users|
  {
    if users == {} {
    } else {
      var h :| h in users;
      UsersAreCounted(users - {h}, names - {TerminalName(h)});
    }
  }

  lemma ClusterCapacityStep(cfg: Settings, w: World, e: Event, bound: int)
    requires Consistent(cfg, w) && Clean(cfg, w, e)
    requires bound >= 1 && bound >= cfg.maxPods && Load(w) <= bound
    ensures Load(Next(cfg, w, e)) <= bound
  {
    hide Restart, GetOrCreate, FinishCreation, CleanupIdle, CheckHealth;
    if e.CrashAndRestart? {
      PodsAreCounted(cfg, w);
      RestartWithinPods(cfg, w, e.boot);
    } else {
      CapacityStep(cfg, w, e, bound);
    }
  }

  /** In every fault-free run, restarts included, the pods of the cluster are at most the known terminals,
      and these never exceed max(1, max_concurrent_pods, number known at the start). */
  lemma {:induction false} ClusterCapacity(cfg: Settings, ws: seq<World>, es: seq<Event>, i: nat)
    requires IsCleanRun(cfg, ws, es) && Consistent(cfg, ws[0]) && i < |ws|
    ensures |ws[i].cluster.pods| <= Load(ws[i]) <= Max(1, Max(cfg.maxPods, Load(ws[0])))
    decreases i
  {
    hide Consistent, Next, Enabled, Load;
    ClusterAgreement(cfg, ws, es);
    PodsAreCounted(cfg, ws[i]);
    if i == 0 {
    } else {
      ClusterCapacity(cfg, ws, es, i - 1);
      assert Clean(cfg, ws[i - 1], es[i - 1]) && ws[i - 1 + 1] == Next(cfg, ws[i - 1], es[i - 1]);
      ClusterCapacityStep(cfg, ws[i - 1], es[i - 1], Max(1, Max(cfg.maxPods, Load(ws[0]))));
    }
  }

  /** Over an initially empty namespace the limit itself, but at least one, is the bound. */
  lemma ClusterCapacityFromEmpty(cfg: Settings, ws: seq<World>, es: seq<Event>, i: nat)
    requires IsCleanRun(cfg, ws, es) && Consistent(cfg, ws[0]) && Initial(ws[0]) && i < |ws|
    ensures |ws[i].cluster.pods| <= Load(ws[i]) <= Max(1, cfg.maxPods)
  {
    hide IsCleanRun, Consistent;
    ClusterCapacity(cfg, ws, es, i);
  }

  /** After a restart the number known is the number of pods adopted, so that many may be there as well. */
  lemma AdoptedPodsCount(cfg: Settings, w: World, boot: Boot)
    requires Consistent(cfg, w) && BootFits(cfg, w.cluster, boot) && Complete(boot.listing, w.cluster)
    ensures var v := Restart(cfg, w, boot, NO_FAULTS);
            Load(v) == |v.pods| == |v.cluster.pods|
  {
    hide Consistent, Restart;
    var v := Restart(cfg, w, boot, NO_FAULTS);
    CrashRecovery(cfg, w, boot);
    RestartKeepsAgreement(cfg, w, boot);
    RestartTracked(cfg, w, boot, NO_FAULTS);
    PodsAreCounted(cfg, v);
    UsersAreCounted(v.pods.Keys, v.cluster.pods.Keys);
    assert |v.pods| == |v.pods.Keys| && |v.cluster.pods| == |v.cluster.pods.Keys|;
  }
}
