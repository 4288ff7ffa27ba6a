/** What the operations do, call by call, whatever API calls fail: in terms of the state before, the
    configuration and the calls that raise, not of the operations' own definitions. */
module Effects {
  import opened Basics
  import opened Names
  import opened Base64
  import opened Terminals
  import opened ClusterModel
  import opened PodBuilder
  import opened Storage
  import opened Lifecycle
  import opened Runs
  import opened Tracking

  // ---------- Claims ----------

  /** `d` has the claims of `c`, but `n` is stamped, if it exists and the call does not raise. */
  ghost predicate Stamps(c: Cluster, d: Cluster, n: Name, now: int, f: Faults) {
    d.pvcs == if n !in c.pvcs || On(AnnotatePvc, n) in f then c.pvcs
              else c.pvcs[n := c.pvcs[n].(lastActive := Stamp(now))]
  }

  ghost predicate Discards(c: Cluster, d: Cluster, n: Name, f: Faults) {
    d.pvcs == if On(DeletePvc, n) in f then c.pvcs else c.pvcs - {n}
  }

  /** `d` has the claims of `c`, and `n` as `p` if that was missing and neither looking nor creating raises. */
  ghost predicate Adds(c: Cluster, d: Cluster, n: Name, p: Pvc, f: Faults) {
    d.pvcs == if n in c.pvcs || On(GetPvc, n) in f || On(CreatePvc, n) in f then c.pvcs else c.pvcs[n := p]
  }

  // ---------- Deleting and hitting ----------

  /** Deleting a terminal tries everything: each of its three objects is gone unless its own deletion
      raised, whatever happened to the others. Per-user claims are stamped or deleted, others untouched. */
  lemma DropTriesEverything(cfg: Settings, w: World, h: Hash, now: int, f: Faults)
    requires h in w.pods && w.pods[h].Named(h)
    ensures var v := Drop(cfg, w, h, now, f);
            var c, d, n, s := w.cluster, v.cluster, TerminalName(h), SecretName(h);
            && v.pods == w.pods - {h} && v.creating == w.creating && v.sharedNode == w.sharedNode
            && d.services == (if On(DeleteService, n) in f then c.services else c.services - {n})
            && d.pods == (if On(DeletePod, n) in f then c.pods else c.pods - {n})
            && d.secrets == (if On(DeleteSecret, s) in f then c.secrets else c.secrets - {s})
            && (if cfg.mode != PerUser || w.pods[h].pvcName.None? then d.pvcs == c.pvcs
                else if cfg.retainPvc then Stamps(c, d, UserPvcName(h), now, f)
                else Discards(c, d, UserPvcName(h), f))
  {
  }

  /** A hit renews the terminal's activity and stamps its claim, and changes nothing else. */
  lemma HitEffect(cfg: Settings, w: World, r: Request, f: Faults)
    requires Tracked(w) && r.hash in w.pods && w.pods[r.hash].Named(r.hash)
    ensures var a := GetOrCreate(cfg, w, r, f);
            && a.Done? && a.world.pods == w.pods[r.hash := w.pods[r.hash].(lastActiveAt := r.now)]
            && a.world.creating == w.creating && a.world.sharedNode == w.sharedNode
            && a.world.cluster == w.cluster.(pvcs := a.world.cluster.pvcs)
            && if w.pods[r.hash].pvcName.None? then a.world.cluster == w.cluster
               else Stamps(w.cluster, a.world.cluster, UserPvcName(r.hash), r.now, f)
  {
  }

  /** Recycling a terminal that is not RUNNING deletes its pod only, and keeps tracking it if that raises. */
  lemma RecycleEffect(cfg: Settings, w: World, h: Hash, now: int, f: Faults)
    requires h in w.pods && w.pods[h].Named(h)
    ensures var a := Recycle(cfg, w, h, now, f);
            var c, d := w.cluster, a.world.cluster;
            && (a.Raised? <==> On(DeletePod, TerminalName(h)) in f)
            && a.world.pods == (if a.Raised? then w.pods else w.pods - {h})
            && a.world.creating == w.creating && a.world.sharedNode == w.sharedNode
            && d.services == c.services && d.secrets == c.secrets
            && d.pods == (if a.Raised? then c.pods else c.pods - {TerminalName(h)})
            && (if w.pods[h].pvcName.None? then d.pvcs == c.pvcs
                else if cfg.retainPvc then Stamps(c, d, UserPvcName(h), now, f)
                else if cfg.mode == PerUser then Discards(c, d, UserPvcName(h), f)
                else d.pvcs == c.pvcs)
  {
  }

  /** A tracked terminal that is not RUNNING is never the answer: unless its pod deletion raises, which ends
      the request, it is untracked and a creation is attempted in its place. */
  lemma UnreadyTerminalIsReplaced(cfg: Settings, w: World, r: Request, f: Faults)
    requires r.hash in w.pods && w.pods[r.hash].Named(r.hash) && w.pods[r.hash].state != PodState.Running
    requires w.creating.None?
    ensures var a := GetOrCreate(cfg, w, r, f);
            if On(DeletePod, TerminalName(r.hash)) in f then
              a.Raised? && a.world.pods == w.pods && a.world.creating.None?
            else
              && r.hash !in a.world.pods
              && var t := Create(cfg, r.userId, r.hash, r.key, r.now);
                 a.world.creating == if a.Raised? then None else Some(InProgress(t, None))
  {
    hide StartCreation, TearDown;
    var a := Recycle(cfg, w, r.hash, r.now, f);
    if a.Done? {
      var v := MakeRoom(cfg, a.world, r.order, r.now, f);
      StartCreationShape(cfg, v, Create(cfg, r.userId, r.hash, r.key, r.now), r.listing, r.now, f);
    }
  }

  /** The victim of an eviction is the first in the dictionary's order among the least recently active. */
  lemma {:induction false} OldestIsFirst(pods: map<Hash, TerminalPod>, order: seq<Hash>, k: nat)
    requires k < |order| && order[k] in pods
    requires forall j :: 0 <= j < k && order[j] in pods ==>
               pods[order[j]].lastActiveAt > pods[order[k]].lastActiveAt
    requires forall j :: k < j < |order| && order[j] in pods ==>
               pods[order[j]].lastActiveAt >= pods[order[k]].lastActiveAt
    ensures Oldest(pods, order) == Some(order[k])
  {
    var n := |order| - 1;
    var before := order[..n];
    if k == n {
      var best := Oldest(pods, before);
      if best.Some? {
        var j :| 0 <= j < n && before[j] == best.value;
        assert order[j] == best.value;
      }
    } else {
      OldestIsFirst(pods, before, k);
    }
  }

  // ---------- Starting a creation ----------

  predicate IsShared(cfg: Settings) {
    cfg.mode == Shared || cfg.mode == SharedRwo
  }

  /** Some call that prepares the storage raises. */
  predicate StorageFails(cfg: Settings, w: World, h: Hash, f: Faults) {
    || (IsShared(cfg) && (On(GetPvc, SharedPvcName) in f
                          || (SharedPvcName !in w.cluster.pvcs && On(CreatePvc, SharedPvcName) in f)))
    || (cfg.mode == SharedRwo && !Truthy(w.sharedNode) && ListPods in f)
    || (cfg.mode == PerUser && (On(GetPvc, UserPvcName(h)) in f
                                || (UserPvcName(h) !in w.cluster.pvcs && On(CreatePvc, UserPvcName(h)) in f)))
  }

  predicate SecretFails(w: World, h: Hash, f: Faults) {
    SecretName(h) in w.cluster.secrets || On(CreateSecret, SecretName(h)) in f
  }

  predicate PodFails(w: World, h: Hash, f: Faults) {
    TerminalName(h) in w.cluster.pods || On(CreatePod, TerminalName(h)) in f
  }

  predicate ServiceFails(w: World, h: Hash, f: Faults) {
    TerminalName(h) in w.cluster.services || On(CreateService, TerminalName(h)) in f
  }

  lemma PrepareEffect(cfg: Settings, w: World, t: TerminalPod, h: Hash, listing: seq<Name>, now: int, f: Faults)
    requires t.Named(h) && (cfg.mode == PerUser ==> t.pvcName.Some?)
    ensures var a := PrepareStorage(cfg, w, t, listing, now, f);
            && (a.Raised? <==> StorageFails(cfg, w, h, f))
            && a.world == w.(sharedNode := a.world.sharedNode, cluster := w.cluster.(pvcs := a.world.cluster.pvcs))
            && (cfg.mode != SharedRwo || Truthy(w.sharedNode) ==> a.world.sharedNode == w.sharedNode)
  {
    hide FirstMountNode, ListedPods;
  }

  lemma PrepareClaims(cfg: Settings, w: World, t: TerminalPod, h: Hash, listing: seq<Name>, now: int, f: Faults)
    requires t.Named(h) && (cfg.mode == PerUser ==> t.pvcName.Some?)
    ensures var d := PrepareStorage(cfg, w, t, listing, now, f).world.cluster;
            && (IsShared(cfg) ==> Adds(w.cluster, d, SharedPvcName, Pvc(SharedClaim, None, Missing, Some(now)), f))
            && (cfg.mode == NoStorage ==> d.pvcs == w.cluster.pvcs)
            && (cfg.mode == PerUser && (UserPvcName(h) !in w.cluster.pvcs || On(GetPvc, UserPvcName(h)) in f) ==>
                  Adds(w.cluster, d, UserPvcName(h), Pvc(UserClaim, Some(h), Stamp(now), Some(now)), f))
            && (cfg.mode == PerUser && UserPvcName(h) in w.cluster.pvcs && On(GetPvc, UserPvcName(h)) !in f ==>
                  Stamps(w.cluster, d, UserPvcName(h), now, f))
  {
    hide FirstMountNode, ListedPods;
  }

  /** A creation raises exactly if a call on its way raises or an object of that name exists; it stops there,
      and everything made until then stays. */
  lemma StartEffect(
    cfg: Settings, w: World, userId: string, h: Hash, key: ApiKey, listing: seq<Name>, now: int, f: Faults)
    ensures var t := Create(cfg, userId, h, key, now);
            var a := StartCreation(cfg, w, t, listing, now, f);
            var c, d := w.cluster, a.world.cluster;
            var unstored := StorageFails(cfg, w, h, f);
            && (a.Raised? <==> unstored || SecretFails(w, h, f) || PodFails(w, h, f) || ServiceFails(w, h, f))
            && a.world.pods == w.pods
            && a.world.creating == (if a.Done? then Some(InProgress(t, None)) else w.creating)
            && d.secrets == (if unstored || SecretFails(w, h, f) then c.secrets
                             else c.secrets[SecretName(h) := BuildSecret(key)])
            && (if unstored || SecretFails(w, h, f) || PodFails(w, h, f) then d.pods == c.pods
                else TerminalName(h) in d.pods && ShapedFor(cfg, h, d.pods[TerminalName(h)])
                     && d.pods == c.pods[TerminalName(h) := d.pods[TerminalName(h)]])
            && d.services == (if a.Raised? then c.services else c.services[TerminalName(h) := Service(cfg.app, h)])
            && d.pvcs == PrepareStorage(cfg, w, t, listing, now, f).world.cluster.pvcs
  {
    hide PrepareStorage, StorageFails, EncodeKey;
    PrepareEffect(cfg, w, Create(cfg, userId, h, key, now), h, listing, now, f);
  }

  // ---------- The remembered node ----------

  /** In shared-RWO mode the node that is remembered is used, whatever pods exist and even if they cannot be
      listed: a creation keeps it and pins its pod to it. */
  lemma RememberedNodeIsUsed(
    cfg: Settings, w: World, userId: string, h: Hash, key: ApiKey, listing: seq<Name>, now: int, f: Faults)
    requires cfg.mode == SharedRwo && Truthy(w.sharedNode)
    ensures var t := Create(cfg, userId, h, key, now);
            var a := StartCreation(cfg, w, t, listing, now, f);
            && a.world.sharedNode == w.sharedNode
            && a == StartCreation(cfg, w, t, listing, now, f + {ListPods})
            && (a.Done? ==> TerminalName(h) in a.world.cluster.pods
                            && a.world.cluster.pods[TerminalName(h)].node == w.sharedNode)
  {
    hide FirstMountNode, ListedPods, EncodeKey;
  }

  /** Without a remembered node the cluster is searched: the node of the first listed pod that mounts the
      shared claim is remembered, set or unset, and the new pod is pinned to it if it is set. */
  lemma SearchedNodeIsRemembered(
    cfg: Settings, w: World, userId: string, h: Hash, key: ApiKey, listing: seq<Name>, now: int, f: Faults, k: nat)
    requires cfg.mode == SharedRwo && !Truthy(w.sharedNode)
    requires var items := ListedPods(w.cluster, cfg.app, cfg.managedBy, listing);
             k <= |items| && (k < |items| ==> Mounts(w.cluster, SharedPvcName, items[k]))
             && forall j :: 0 <= j < k ==> !Mounts(w.cluster, SharedPvcName, items[j])
    ensures var items := ListedPods(w.cluster, cfg.app, cfg.managedBy, listing);
            var node := if k < |items| then w.cluster.pods[items[k]].node else None;
            var a := StartCreation(cfg, w, Create(cfg, userId, h, key, now), listing, now, f);
            && (!StorageFails(cfg, w, h, f) ==> a.world.sharedNode == node)
            && (a.Done? ==> TerminalName(h) in a.world.cluster.pods
                            && a.world.cluster.pods[TerminalName(h)].node == if Truthy(node) then node else None)
  {
    hide FirstMountNode, EncodeKey;
    var c := EnsureSharedPvc(cfg, w.cluster, now, f);
    FirstMountIsFirst(w.cluster, SharedPvcName, ListedPods(w.cluster, cfg.app, cfg.managedBy, listing), k);
    if c.Some? {
      SameSearch(cfg, w.cluster, c.value, listing);
    }
  }

  lemma {:induction false} SameListing(c: Cluster, d: Cluster, app: string, managedBy: string, order: seq<Name>)
    requires d.pods == c.pods
    ensures ListedPods(d, app, managedBy, order) == ListedPods(c, app, managedBy, order)
  {
    if order == [] {
    } else {
      SameListing(c, d, app, managedBy, order[..|order| - 1]);
    }
  }

  lemma {:induction false} SameFirstMount(c: Cluster, d: Cluster, claim: Name, items: seq<Name>)
    requires d.pods == c.pods
    ensures FirstMountNode(d, claim, items) == FirstMountNode(c, claim, items)
  {
    if items == [] {
    } else {
      SameFirstMount(c, d, claim, items[1..]);
    }
  }

  lemma SameSearch(cfg: Settings, c: Cluster, d: Cluster, order: seq<Name>)
    requires d.pods == c.pods
    ensures FirstMountNode(d, SharedPvcName, ListedPods(d, cfg.app, cfg.managedBy, order))
            == FirstMountNode(c, SharedPvcName, ListedPods(c, cfg.app, cfg.managedBy, order))
  {
    SameListing(c, d, cfg.app, cfg.managedBy, order);
    SameFirstMount(c, d, SharedPvcName, ListedPods(c, cfg.app, cfg.managedBy, order));
  }

  lemma RememberedStep(cfg: Settings, w: World, e: Event)
    requires cfg.mode == SharedRwo && Truthy(w.sharedNode) && Tracked(w) && Enabled(cfg, w, e) && !e.CrashAndRestart?
    ensures Next(cfg, w, e).sharedNode == w.sharedNode
    ensures e.Ask? && e.request.hash !in w.pods && Next(cfg, w, e).creating.Some? ==>
              var n := TerminalName(e.request.hash);
              n in Next(cfg, w, e).cluster.pods && Next(cfg, w, e).cluster.pods[n].node == w.sharedNode
  {
    hide GetOrCreate, StartCreation, MakeRoom, DropAll, RefreshAll, Tracked, Enumerates;
    match e
    case Ask(r, f) =>
      AskUnfolds(cfg, w, r, f);
      if r.hash !in w.pods {
        MakeRoomShape(cfg, w, r.order, r.now, f);
        var v := MakeRoom(cfg, w, r.order, r.now, f);
        RememberedNodeIsUsed(cfg, v, r.userId, r.hash, r.key, r.listing, r.now, f);
        StartCreationShape(cfg, v, Create(cfg, r.userId, r.hash, r.key, r.now), r.listing, r.now, f);
      }
    case Poll =>
    case Answer(_, _, _) =>
    case Abandon =>
    case IdleSweep(order, now, f) => DropAllShape(cfg, w, IdleAmong(cfg, w.pods, now, order), now, f);
    case HealthSweep(order, now, f) =>
      DropAllShape(cfg, RefreshAll(w, f), UnhealthyAmong(w, f, order), now, f);
      RefreshKeepsNode(w, f);
    case PvcSweep(_, _, _) =>
    case Environment(_) =>
  }

  lemma RefreshKeepsNode(w: World, f: Faults)
    ensures RefreshAll(w, f).sharedNode == w.sharedNode
  {
  }

  /** In every run, whatever calls fail and whatever pods exist, a remembered node stays until the next
      restart, and every creation that starts in between pins its pod to it. */
  lemma {:induction false} RememberedNodeStays(cfg: Settings, ws: seq<World>, es: seq<Event>, i: nat, k: nat)
    requires cfg.mode == SharedRwo && IsRun(cfg, ws, es) && Initial(ws[0])
    requires i <= k < |ws| && Truthy(ws[i].sharedNode) && forall j :: i <= j < k ==> !es[j].CrashAndRestart?
    ensures ws[k].sharedNode == ws[i].sharedNode
    ensures k < |es| && es[k].Ask? && es[k].request.hash !in ws[k].pods && ws[k + 1].creating.Some? ==>
              var n := TerminalName(es[k].request.hash);
              n in ws[k + 1].cluster.pods && ws[k + 1].cluster.pods[n].node == ws[i].sharedNode
    decreases k
  {
    hide Next, Enabled, Tracked;
    TrackedMeansRunning(cfg, ws, es);
    if i == k {
    } else {
      RememberedNodeStays(cfg, ws, es, i, k - 1);
      assert Enabled(cfg, ws[k - 1], es[k - 1]) && ws[k - 1 + 1] == Next(cfg, ws[k - 1], es[k - 1]);
      RememberedStep(cfg, ws[k - 1], es[k - 1]);
    }
    if k < |es| && es[k].Ask? {
      assert Enabled(cfg, ws[k], es[k]) && ws[k + 1] == Next(cfg, ws[k], es[k]);
      RememberedStep(cfg, ws[k], es[k]);
    }
  }

  // ---------- Ending a creation ----------

  /** A wait that ends ready and with an address makes its terminal RUNNING there and tracks it. Any other
      end tracks nobody, and deletes service, pod and secret in this order until a deletion raises; the
      claim stays as it is. */
  lemma FinishEffect(w: World, ready: bool, ip: Option<string>, f: Faults, h: Hash)
    requires w.creating.Some? && w.creating.value.terminal.Named(h)
    ensures var t := w.creating.value.terminal;
            var v := FinishCreation(w, ready, ip, f);
            var noService, noPod := On(DeleteService, TerminalName(h)) in f, On(DeletePod, TerminalName(h)) in f;
            var noSecret := On(DeleteSecret, SecretName(h)) in f;
            && v.creating.None? && v.sharedNode == w.sharedNode && v.cluster.pvcs == w.cluster.pvcs
            && if ready && ip.Some? && ip.value != "" then
                 v.cluster == w.cluster && v.pods == w.pods[h := t.(state := PodState.Running, podIp := ip)]
               else
                 && v.pods == w.pods
                 && v.cluster.services == w.cluster.services - (if noService then {} else {TerminalName(h)})
                 && v.cluster.pods == w.cluster.pods - (if noService || noPod then {} else {TerminalName(h)})
                 && v.cluster.secrets
                    == w.cluster.secrets - (if noService || noPod || noSecret then {} else {SecretName(h)})
  {
  }

  // ---------- Starting up ----------

  /** A listed pod without a user label is skipped. */
  lemma UnlabelledPodIsSkipped(cfg: Settings, w: World, n: Name, p: Pod, now: int, key: ApiKey, f: Faults)
    requires p.labels.user.None? || p.labels.user.value == ""
    ensures ReconcileOne(cfg, w, n, p, now, key, f) == Done(w)
  {
  }

  /** A Running pod is adopted, with the key in its secret, or with a fresh key if there is no secret or no
      key in it. Start-up gives up if the secret cannot be read or its key not decoded. */
  lemma RunningPodIsAdopted(cfg: Settings, w: World, n: Name, p: Pod, h: Hash, now: int, key: ApiKey, f: Faults)
    requires p.labels.user == Some(h) && h != "" && p.phase == Phase.Running
    ensures var a := ReconcileOne(cfg, w, n, p, now, key, f);
            var s := SecretName(h);
            var keyless := s !in w.cluster.secrets || w.cluster.secrets[s].apiKey.None?;
            var unread := On(GetSecret, s) in f || (!keyless && DecodeKey(w.cluster.secrets[s].apiKey.value).None?);
            && (a.Raised? <==> unread) && a.world.cluster == w.cluster
            && (unread ==> a.world == w)
            && (!unread ==>
                  && h in a.world.pods && a.world == w.(pods := w.pods[h := a.world.pods[h]])
                  && var t := a.world.pods[h];
                     && t.userId == h && t.hash == h && t.podName == n && t.serviceName == TerminalName(h)
                     && t.secretName == s && t.state == PodState.Running && t.lastActiveAt == now && t.podIp == p.ip
                     && t.pvcName == (if cfg.mode == PerUser then Some(UserPvcName(h)) else None)
                     && (if keyless then t.apiKey == key
                         else DecodeKey(w.cluster.secrets[s].apiKey.value) == Some(t.apiKey)))
  {
  }

  /** Any other pod of a user is removed: service, pod and secret in this order until a deletion raises, which
      ends start-up. */
  lemma OtherPodIsRemoved(cfg: Settings, w: World, n: Name, p: Pod, h: Hash, now: int, key: ApiKey, f: Faults)
    requires p.labels.user == Some(h) && h != "" && p.phase != Phase.Running
    ensures var a := ReconcileOne(cfg, w, n, p, now, key, f);
            var noService, noPod, noSecret :=
              On(DeleteService, TerminalName(h)) in f, On(DeletePod, n) in f, On(DeleteSecret, SecretName(h)) in f;
            && (a.Raised? <==> noService || noPod || noSecret)
            && a.world == w.(cluster := a.world.cluster) && a.world.cluster.pvcs == w.cluster.pvcs
            && a.world.cluster.services == w.cluster.services - (if noService then {} else {TerminalName(h)})
            && a.world.cluster.pods == w.cluster.pods - (if noService || noPod then {} else {n})
            && a.world.cluster.secrets
               == w.cluster.secrets - (if noService || noPod || noSecret then {} else {SecretName(h)})
  {
  }

  ghost predicate Keyless(c: Cluster, h: Hash) {
    SecretName(h) !in c.secrets || c.secrets[SecretName(h)].apiKey.None?
  }

  lemma {:induction false} ReconcilingAddsNoKeys(
    cfg: Settings, w: World, listed: seq<Pod>, names: seq<Name>, boot: Boot, f: Faults, h: Hash)
    requires |names| == |listed| && |names| <= |boot.clock| && |names| <= |boot.keys|
    requires Keyless(w.cluster, h)
    ensures Keyless(ReconcileFirst(cfg, w, listed, names, boot, f).world.cluster, h)
  {
    hide StoredKey;
    if names == [] {
    } else {
      var k := |names| - 1;
      ReconcilingAddsNoKeys(cfg, w, listed[..k], names[..k], boot, f, h);
    }
  }

  /** A completed start-up: the last listed pod of a user, if it is Running, gives the terminal its name, the
      clock reading and, without a key in a secret, the fresh key made for just this pod. */
  lemma {:induction false} AdoptionByPosition(
    cfg: Settings, w: World, listed: seq<Pod>, names: seq<Name>, boot: Boot, f: Faults, i: nat, h: Hash)
    requires |names| == |listed| && |names| <= |boot.clock| && |names| <= |boot.keys| && i < |names|
    requires ReconcileFirst(cfg, w, listed, names, boot, f).Done?
    requires listed[i].labels.user == Some(h) && h != "" && listed[i].phase == Phase.Running
    requires forall j :: i < j < |names| ==> listed[j].labels.user != Some(h)
    ensures var v := ReconcileFirst(cfg, w, listed, names, boot, f).world;
            && h in v.pods && v.pods[h].podName == names[i] && v.pods[h].lastActiveAt == boot.clock[i]
            && v.pods[h].podIp == listed[i].ip
            && (Keyless(w.cluster, h) ==> v.pods[h].apiKey == boot.keys[i])
  {
    hide ReconcileOne, Keyless, Adopted;
    var k := |names| - 1;
    var a := ReconcileFirst(cfg, w, listed[..k], names[..k], boot, f);
    if i == k {
      RunningPodIsAdopted(cfg, a.world, names[k], listed[k], h, boot.clock[k], boot.keys[k], f);
      if Keyless(w.cluster, h) {
        ReconcilingAddsNoKeys(cfg, w, listed[..k], names[..k], boot, f, h);
        KeylessAdoption(a.world.cluster, h);
      }
    } else {
      AdoptionByPosition(cfg, w, listed[..k], names[..k], boot, f, i, h);
      OtherUsersStay(cfg, a.world, names[k], listed[k], h, boot.clock[k], boot.keys[k], f);
    }
  }

  lemma KeylessAdoption(c: Cluster, h: Hash)
    requires Keyless(c, h)
    ensures SecretName(h) !in c.secrets || c.secrets[SecretName(h)].apiKey.None?
  {
  }

  lemma OtherUsersStay(cfg: Settings, w: World, n: Name, p: Pod, h: Hash, now: int, key: ApiKey, f: Faults)
    requires p.labels.user != Some(h) && h in w.pods
    ensures var v := ReconcileOne(cfg, w, n, p, now, key, f).world;
            h in v.pods && v.pods[h] == w.pods[h]
  {
    hide StoredKey;
  }

  /** If the pods cannot be listed, start-up tracks nobody and changes nothing. */
  lemma UnlistedPodsAreIgnored(cfg: Settings, w: World, boot: Boot, f: Faults)
    requires BootFits(cfg, w.cluster, boot) && ListPods in f
    ensures Restart(cfg, w, boot, f) == World(map[], None, None, w.cluster)
  {
  }
}
