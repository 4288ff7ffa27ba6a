/** The pod manager itself: each method is one atomic step of the event loop, proved against its
    specification in `Lifecycle`. `get_or_create` is split at its only suspension, the readiness wait. */
module PodManagement {
  import opened Basics
  import opened Names
  import opened Base64
  import opened Terminals
  import opened ClusterModel
  import opened PodBuilder
  import opened Storage
  import opened Lifecycle

  class PodManager {
    const cfg: Settings
    const k8s: K8sClient
    const storage: StorageManager
    var pods: map<Hash, TerminalPod>
    var creating: Option<InProgress>

    ghost predicate Valid() {
      storage.cfg == cfg && storage.k8s == k8s
    }

    ghost function View(): World
      reads this, k8s, storage
    {
      World(pods, creating, storage.sharedPvcNode, k8s.cluster)
    }

    constructor (cfg: Settings, k8s: K8sClient, storage: StorageManager)
      requires storage.cfg == cfg && storage.k8s == k8s
      ensures Valid() && this.cfg == cfg && this.k8s == k8s && this.storage == storage
      ensures View() == World(map[], None, storage.sharedPvcNode, k8s.cluster)
    {
      this.cfg, this.k8s, this.storage := cfg, k8s, storage;
      pods, creating := map[], None;
    }

    // ---------- Deleting ----------

    method DeletePod(h: Hash, now: int)
      requires Valid()
      modifies this`pods, k8s`cluster
      ensures View() == Drop(cfg, old(View()), h, now, k8s.faults)
    {
      if h !in pods {
        return;
      }
      var t := pods[h];
      pods := pods - {h};
      var _ := k8s.DeleteService(t.serviceName);
      var _ := k8s.DeletePod(t.podName);
      var _ := k8s.DeleteSecret(t.secretName);
      if t.pvcName.Some? && cfg.mode == PerUser {
        if cfg.retainPvc {
          storage.Touch(t.pvcName.value, now);
        } else {
          storage.DeleteForUser(t.pvcName.value);
        }
      }
    }

    method EvictOldestPod(order: seq<Hash>, now: int)
      requires Valid()
      modifies this`pods, k8s`cluster
      ensures View() == EvictOldest(cfg, old(View()), order, now, k8s.faults)
    {
      var oldest := Oldest(pods, order);
      if oldest.Some? {
        DeletePod(oldest.value, now);
      }
    }

    /** The idle sweep; `order` is the iteration order of the dictionary. */
    method CleanupIdlePods(order: seq<Hash>, now: int)
      requires Valid() && Enumerates(order, pods.Keys)
      modifies this`pods, k8s`cluster
      ensures View() == CleanupIdle(cfg, old(View()), order, now, k8s.faults)
    {
      var toEvict: seq<Hash> := [];
      for i := 0 to |order|
        invariant toEvict == IdleAmong(cfg, pods, now, order[..i])
      {
        assert order[..i + 1][..i] == order[..i];
        var idle := now - pods[order[i]].lastActiveAt;
        if idle > cfg.idleTimeout * SECOND {
          toEvict := toEvict + [order[i]];
        }
      }
      assert order[..|order|] == order;
      ghost var before := View();
      for i := 0 to |toEvict|
        invariant View() == DropAll(cfg, before, toEvict[..i], now, k8s.faults)
      {
        assert toEvict[..i + 1][..i] == toEvict[..i];
        DeletePod(toEvict[i], now);
      }
      assert toEvict[..|toEvict|] == toEvict;
    }

    /** Looks at one terminal's pod: decides whether it must go, and follows a changed address. */
    method LookAt(h: Hash) returns (unhealthy: bool)
      requires Valid() && h in pods
      modifies this`pods
      ensures unhealthy == Unhealthy(old(View()), k8s.faults, h)
      ensures pods == old(pods)[h := Refreshed(old(pods)[h], k8s.cluster, k8s.faults)]
    {
      var t := pods[h];
      if t.state != PodState.Running || On(GetPod, t.podName) in k8s.faults {
        return false;
      }
      if t.podName !in k8s.cluster.pods {
        return true;
      }
      var p := k8s.cluster.pods[t.podName];
      if p.phase == Phase.Failed || p.phase == Unknown {
        return true;
      }
      if p.phase == Phase.Running && p.ip != t.podIp {
        pods := pods[h := t.(podIp := p.ip)];
      }
      return false;
    }

    method LookAtAll(order: seq<Hash>) returns (toRemove: seq<Hash>)
      requires Valid() && Enumerates(order, pods.Keys)
      modifies this`pods
      ensures toRemove == UnhealthyAmong(old(View()), k8s.faults, order)
      ensures View() == RefreshAll(old(View()), k8s.faults)
    {
      hide Refreshed, Unhealthy;
      ghost var before := View();
      NothingRefreshed(before, k8s.faults);
      toRemove := [];
      for i := 0 to |order|
        invariant toRemove == UnhealthyAmong(before, k8s.faults, order[..i])
        invariant RefreshedSome(before, k8s.faults, order[..i], pods)
      {
        assert order[..i + 1][..i] == order[..i];
        var h := order[i];
        NotSeenYet(order, i);
        ghost var current := View();
        var unhealthy := LookAt(h);
        SameTerminalSameHealth(before, current, k8s.faults, h);
        RefreshOneMore(before, k8s.faults, order[..i], current.pods, h);
        assert order[..i] + [h] == order[..i + 1];
        if unhealthy {
          toRemove := toRemove + [h];
        }
      }
      assert order[..|order|] == order;
      RefreshedEverything(before, k8s.faults, order, pods);
    }

    /** The health sweep: first look at every terminal, then drop the unhealthy ones. */
    method CheckPodHealth(order: seq<Hash>, now: int)
      requires Valid() && Enumerates(order, pods.Keys)
      modifies this`pods, k8s`cluster
      ensures View() == CheckHealth(cfg, old(View()), order, now, k8s.faults)
    {
      var toRemove := LookAtAll(order);
      ghost var seen := View();
      for i := 0 to |toRemove|
        invariant View() == DropAll(cfg, seen, toRemove[..i], now, k8s.faults)
      {
        assert toRemove[..i + 1][..i] == toRemove[..i];
        FailThenDelete(toRemove[i], now);
      }
      assert toRemove[..|toRemove|] == toRemove;
    }

    /** Marking a terminal FAILED just before deleting it leaves no trace. */
    method FailThenDelete(h: Hash, now: int)
      requires Valid()
      modifies this`pods, k8s`cluster
      ensures View() == Drop(cfg, old(View()), h, now, k8s.faults)
    {
      ghost var w := View();
      if h in pods {
        pods := pods[h := pods[h].(state := PodState.Failed)];
      }
      ghost var marked := View();
      DeletePod(h, now);
      assert h in w.pods ==> marked.pods - {h} == w.pods - {h};
    }

    // ---------- Creating ----------

    /** The first half of `_create_pod_resources`, up to the readiness wait. */
    method StartPodResources(t: TerminalPod, listing: seq<Name>, now: int) returns (ok: bool)
      requires Valid()
      modifies this`creating, k8s`cluster, storage`sharedPvcNode
      ensures ok == StartCreation(cfg, old(View()), t, listing, now, k8s.faults).Done?
      ensures View() == StartCreation(cfg, old(View()), t, listing, now, k8s.faults).world
      ensures ok ==> creating == Some(InProgress(t, None))
    {
      ghost var w := View();
      ok := PrepareUserStorage(t, listing, now);
      if !ok {
        return;
      }
      ghost var prepared := View();
      var m := BuildPodForUser(cfg, t, if cfg.mode == SharedRwo then storage.sharedPvcNode else None);
      if m.None? {
        return false;
      }
      ok := CreateTheObjects(t, m.value);
      if ok {
        creating := Some(InProgress(t, None));
      }
    }

    method PrepareUserStorage(t: TerminalPod, listing: seq<Name>, now: int) returns (ok: bool)
      requires Valid()
      modifies k8s`cluster, storage`sharedPvcNode
      ensures ok == PrepareStorage(cfg, old(View()), t, listing, now, k8s.faults).Done?
      ensures View() == PrepareStorage(cfg, old(View()), t, listing, now, k8s.faults).world
    {
      if cfg.mode == Shared || cfg.mode == SharedRwo {
        ok := storage.EnsureShared(now);
        if !ok {
          return;
        }
      }
      var node;
      ok, node := storage.GetSharedNode(listing);
      if !ok {
        return;
      }
      if cfg.mode == PerUser && t.pvcName.Some? {
        ok := storage.CreateForUser(t.pvcName.value, t.hash, now);
      }
    }

    method CreateTheObjects(t: TerminalPod, m: Manifests) returns (ok: bool)
      requires Valid()
      modifies k8s`cluster
      ensures ok == CreateObjects(old(View()), t, m, k8s.faults).Done?
      ensures View() == CreateObjects(old(View()), t, m, k8s.faults).world
    {
      ok := k8s.CreateSecret(t.secretName, m.secret);
      if !ok {
        return;
      }
      ok := k8s.CreatePod(t.podName, m.pod);
      if !ok {
        return;
      }
      ok := k8s.CreateService(t.serviceName, m.service);
    }

    /** Answers at once for a RUNNING terminal; otherwise makes room and starts a creation. */
    method GetOrCreateTerminal(r: Request) returns (reply: Reply)
      requires Valid() && creating.None? && Enumerates(r.order, pods.Keys)
      modifies this, k8s`cluster, storage`sharedPvcNode
      ensures View() == GetOrCreate(cfg, old(View()), r, k8s.faults).world
      ensures reply.Hit? <==> IsHit(old(View()), r.hash)
      ensures reply.Hit? ==> reply.terminal == pods[r.hash] && reply.terminal.state == PodState.Running
      ensures reply.Failure? <==> GetOrCreate(cfg, old(View()), r, k8s.faults).Raised?
      ensures reply.Waiting? ==>
                creating.Some? && creating.value.terminal == Create(cfg, r.userId, r.hash, r.key, r.now)
    {
      hide StartCreation, Recycle, EvictOldest;
      if r.hash in pods && pods[r.hash].state == PodState.Running {
        TouchTerminal(r.hash, r.now);
        return Hit(pods[r.hash]);
      }
      if r.hash in pods {
        var recycled := RecycleTerminal(r.hash, r.now);
        if !recycled {
          return Failure;
        }
      }
      if |pods| >= cfg.maxPods {
        EvictOldestPod(r.order, r.now);
      }
      var t := Create(cfg, r.userId, r.hash, r.key, r.now);
      var started := StartPodResources(t, r.listing, r.now);
      return if started then Waiting else Failure;
    }

    method TouchTerminal(h: Hash, now: int)
      requires Valid() && h in pods
      modifies this`pods, k8s`cluster
      ensures View() == Touched(cfg, old(View()), h, now, k8s.faults)
    {
      pods := pods[h := pods[h].(lastActiveAt := now)];
      if pods[h].pvcName.Some? {
        storage.Touch(pods[h].pvcName.value, now);
      }
    }

    method RecycleTerminal(h: Hash, now: int) returns (ok: bool)
      requires Valid() && h in pods
      modifies this`pods, k8s`cluster
      ensures ok == Recycle(cfg, old(View()), h, now, k8s.faults).Done?
      ensures View() == Recycle(cfg, old(View()), h, now, k8s.faults).world
    {
      var t := pods[h];
      if t.pvcName.Some? {
        if !cfg.retainPvc {
          storage.DeleteForUser(t.pvcName.value);
        } else {
          storage.Touch(t.pvcName.value, now);
        }
      }
      ok := k8s.DeletePod(t.podName);
      if ok {
        pods := pods - {h};
      }
    }

    /** The second half of a creation; None stands for the exception raised to the caller. */
    method FinishPodResources(ready: bool, ip: Option<string>) returns (result: Option<TerminalPod>)
      requires Valid() && creating.Some?
      modifies this, k8s`cluster
      ensures View() == FinishCreation(old(View()), ready, ip, k8s.faults)
      ensures result.Some? <==> ready && Truthy(ip)
      ensures result.Some? ==> result.value.state == PodState.Running && result.value.hash in pods
                               && pods[result.value.hash] == result.value
    {
      var t := creating.value.terminal;
      creating := None;
      if ready && Truthy(ip) {
        t := t.(state := PodState.Running, podIp := ip);
        pods := pods[t.hash := t];
        return Some(t);
      }
      var ok := k8s.DeleteService(t.serviceName);
      if ok {
        ok := k8s.DeletePod(t.podName);
        if ok {
          var _ := k8s.DeleteSecret(t.secretName);
        }
      }
      return None;
    }

    // ---------- Starting up ----------

    method ReconcileExistingPods(boot: Boot)
      requires Valid() && BootFits(cfg, k8s.cluster, boot)
      modifies this`pods, k8s`cluster
      ensures View() == Reconcile(cfg, old(View()), boot, k8s.faults)
    {
      hide ReconcileOne;
      ghost var w := View();
      var ok, names := k8s.ListTerminalPods(cfg.app, cfg.managedBy, boot.listing);
      if !ok {
        return;
      }
      ListedFit(k8s.cluster, cfg.app, cfg.managedBy, boot.listing);
      var listed := Snapshot(k8s.cluster, names);
      var i := 0;
      while i < |names|
        invariant 0 <= i <= |names|
        invariant View() == ReconcileFirst(cfg, w, listed[..i], names[..i], boot, k8s.faults).world
        invariant ReconcileFirst(cfg, w, listed[..i], names[..i], boot, k8s.faults).Done?
      {
        assert names[..i + 1][..i] == names[..i] && listed[..i + 1][..i] == listed[..i];
        ok := ReconcilePod(names[i], listed[i], boot.clock[i], boot.keys[i]);
        i := i + 1;
        if !ok {
          StaysRaised(cfg, w, listed, names, boot, k8s.faults, i);
          return;
        }
      }
      assert names[..|names|] == names && listed[..|names|] == listed;
    }

    method ReconcilePod(n: Name, p: Pod, now: int, key: ApiKey) returns (ok: bool)
      requires Valid()
      modifies this`pods, k8s`cluster
      ensures ok == ReconcileOne(cfg, old(View()), n, p, now, key, k8s.faults).Done?
      ensures View() == ReconcileOne(cfg, old(View()), n, p, now, key, k8s.faults).world
    {
      if !Truthy(p.labels.user) {
        return true;
      }
      var h := p.labels.user.value;
      if p.phase == Phase.Running {
        var stored := StoredKey(k8s.cluster, SecretName(h), key, k8s.faults);
        if stored.None? {
          return false;
        }
        pods := pods[h := Adopted(cfg, n, p, h, stored.value, now)];
        return true;
      }
      ok := k8s.DeleteService(TerminalName(h));
      if ok {
        ok := k8s.DeletePod(n);
        if ok {
          ok := k8s.DeleteSecret(SecretName(h));
        }
      }
    }

    /** The PVC sweep of the retention loop. */
    method CleanupPvcs(listing: seq<Name>, now: int)
      requires Valid()
      modifies k8s`cluster
      ensures View() == old(View()).(
                cluster := CleanupExpired(cfg, old(k8s.cluster), pods.Keys, listing, now, k8s.faults))
    {
      var _ := storage.CleanupExpiredPvcs(pods.Keys, listing, now);
    }
  }

  /** The terminals already looked at are refreshed, and the others are as they were. */
  ghost predicate RefreshedSome(w: World, f: Faults, done: seq<Hash>, pods: map<Hash, TerminalPod>) {
    && pods.Keys == w.pods.Keys
    && forall h :: h in pods ==> pods[h] == if h in done then Refreshed(w.pods[h], w.cluster, f) else w.pods[h]
  }

  lemma NothingRefreshed(w: World, f: Faults)
    ensures RefreshedSome(w, f, [], w.pods)
  {
  }

  lemma RefreshOneMore(w: World, f: Faults, done: seq<Hash>, pods: map<Hash, TerminalPod>, h: Hash)
    requires RefreshedSome(w, f, done, pods) && h in pods && h !in done
    ensures RefreshedSome(w, f, done + [h], pods[h := Refreshed(pods[h], w.cluster, f)])
  {
  }

  lemma RefreshedEverything(w: World, f: Faults, order: seq<Hash>, pods: map<Hash, TerminalPod>)
    requires Enumerates(order, w.pods.Keys) && RefreshedSome(w, f, order, pods)
    ensures pods == RefreshAll(w, f).pods
  {
    assert forall h :: h in pods ==> h in order;
  }

  lemma NotSeenYet(order: seq<Hash>, i: nat)
    requires NoDuplicates(order) && i < |order|
    ensures order[i] !in order[..i]
  {
  }

  lemma SameTerminalSameHealth(w: World, v: World, f: Faults, h: Hash)
    requires h in w.pods && h in v.pods && w.pods[h] == v.pods[h] && w.cluster == v.cluster
    ensures Unhealthy(w, f, h) == Unhealthy(v, f, h)
  {
  }

  /** Once the pass has raised, the remaining pods are not visited. */
  lemma {:induction false} StaysRaised(
    cfg: Settings, w: World, listed: seq<Pod>, names: seq<Name>, boot: Boot, f: Faults, i: nat)
    requires |names| == |listed| && |names| <= |boot.clock| && |names| <= |boot.keys| && i <= |names|
    requires ReconcileFirst(cfg, w, listed[..i], names[..i], boot, f).Raised?
    ensures ReconcileFirst(cfg, w, listed, names, boot, f) == ReconcileFirst(cfg, w, listed[..i], names[..i], boot, f)
    decreases |names|
  {
    if i == |names| {
      assert listed[..i] == listed && names[..i] == names;
    } else {
      var k := |names| - 1;
      assert listed[..k][..i] == listed[..i] && names[..k][..i] == names[..i];
      StaysRaised(cfg, w, listed[..k], names[..k], boot, f, i);
    }
  }
}
