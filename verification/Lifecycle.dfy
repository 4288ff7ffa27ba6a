/** The pod manager as a transition system: what each atomic step does to the tracked terminals,
    the creation in progress, the remembered node and the cluster. */
module Lifecycle {
  import opened Basics
  import opened Names
  import opened Base64
  import opened Terminals
  import opened ClusterModel
  import opened PodBuilder
  import opened Storage

  /** The creation that holds the lock while it waits for readiness; `seen` is the address of the
      latest poll that saw the pod Running. */
  datatype InProgress = InProgress(terminal: TerminalPod, seen: Option<string>)

  datatype World = World(
    pods: map<Hash, TerminalPod>,
    creating: Option<InProgress>,
    sharedNode: Option<string>,
    cluster: Cluster)

  /** How a step that may raise ends; its changes up to that point stay. */
  datatype Attempt = Done(world: World) | Raised(world: World)

  // ---------- Deleting terminals ----------

  /** `_delete_pod` on the cluster: every call is tried, and every exception is swallowed. */
  function TearDown(cfg: Settings, c: Cluster, t: TerminalPod, now: int, f: Faults): Cluster {
    var c1 := Swallow(RemoveService(c, t.serviceName, f), c);
    var c2 := Swallow(RemovePod(c1, t.podName, f), c1);
    var c3 := Swallow(RemoveSecret(c2, t.secretName, f), c2);
    if t.pvcName.Some? && cfg.mode == PerUser then
      if cfg.retainPvc then TouchPvc(c3, t.pvcName.value, now, f) else DeleteUserPvc(cfg, c3, t.pvcName.value, f)
    else c3
  }

  function Drop(cfg: Settings, w: World, h: Hash, now: int, f: Faults): World {
    if h !in w.pods then w
    else w.(pods := w.pods - {h}, cluster := TearDown(cfg, w.cluster, w.pods[h], now, f))
  }

  function DropAll(cfg: Settings, w: World, hs: seq<Hash>, now: int, f: Faults): World {
    if hs == [] then w else Drop(cfg, DropAll(cfg, w, hs[..|hs| - 1], now, f), hs[|hs| - 1], now, f)
  }

  /** `min` over the dictionary, whose iteration order is `order`: the first least recently active. */
  function Oldest(pods: map<Hash, TerminalPod>, order: seq<Hash>): (r: Option<Hash>)
    ensures r.Some? ==> r.value in pods && r.value in order
    ensures r.Some? ==> forall h :: h in order && h in pods ==> pods[r.value].lastActiveAt <= pods[h].lastActiveAt
    ensures r.None? ==> forall h :: h in order ==> h !in pods
  {
    if order == [] then None
    else
      var h := order[|order| - 1];
      var best := Oldest(pods, order[..|order| - 1]);
      if h !in pods then best
      else if best.Some? && pods[best.value].lastActiveAt <= pods[h].lastActiveAt then best
      else Some(h)
  }

  function EvictOldest(cfg: Settings, w: World, order: seq<Hash>, now: int, f: Faults): World {
    var oldest := Oldest(w.pods, order);
    if oldest.None? then w else Drop(cfg, w, oldest.value, now, f)
  }

  predicate Idle(cfg: Settings, pods: map<Hash, TerminalPod>, now: int, h: Hash) {
    h in pods && now - pods[h].lastActiveAt > cfg.idleTimeout * SECOND
  }

  function IdleAmong(cfg: Settings, pods: map<Hash, TerminalPod>, now: int, order: seq<Hash>): seq<Hash> {
    if order == [] then []
    else IdleAmong(cfg, pods, now, order[..|order| - 1])
         + if Idle(cfg, pods, now, order[|order| - 1]) then [order[|order| - 1]] else []
  }

  function CleanupIdle(cfg: Settings, w: World, order: seq<Hash>, now: int, f: Faults): World {
    DropAll(cfg, w, IdleAmong(cfg, w.pods, now, order), now, f)
  }

  predicate Unhealthy(w: World, f: Faults, h: Hash) {
    && h in w.pods && w.pods[h].state == PodState.Running && On(GetPod, w.pods[h].podName) !in f
    && (w.pods[h].podName in w.cluster.pods ==>
          var phase := w.cluster.pods[w.pods[h].podName].phase; phase == Phase.Failed || phase == Unknown)
  }

  function UnhealthyAmong(w: World, f: Faults, order: seq<Hash>): seq<Hash> {
    if order == [] then []
    else UnhealthyAmong(w, f, order[..|order| - 1])
         + if Unhealthy(w, f, order[|order| - 1]) then [order[|order| - 1]] else []
  }

  /** A Running pod whose address changed gives its terminal the new address. */
  function Refreshed(t: TerminalPod, c: Cluster, f: Faults): TerminalPod {
    if t.state == PodState.Running && On(GetPod, t.podName) !in f && t.podName in c.pods
       && c.pods[t.podName].phase == Phase.Running && c.pods[t.podName].ip != t.podIp
    then t.(podIp := c.pods[t.podName].ip)
    else t
  }

  function RefreshAll(w: World, f: Faults): World {
    w.(pods := map h | h in w.pods :: Refreshed(w.pods[h], w.cluster, f))
  }

  function CheckHealth(cfg: Settings, w: World, order: seq<Hash>, now: int, f: Faults): World {
    DropAll(cfg, RefreshAll(w, f), UnhealthyAmong(w, f, order), now, f)
  }

  // ---------- Creating terminals ----------

  /** `order` is the iteration order of the dictionary, `listing` that of the API server. */
  datatype Request = Request(
    userId: string, hash: Hash, key: ApiKey, now: int, order: seq<Hash>, listing: seq<Name>)

  datatype Reply = Hit(terminal: TerminalPod) | Waiting | Failure

  predicate IsHit(w: World, h: Hash) {
    h in w.pods && w.pods[h].state == PodState.Running
  }

  function Touched(cfg: Settings, w: World, h: Hash, now: int, f: Faults): World
    requires h in w.pods
  {
    var t := w.pods[h].(lastActiveAt := now);
    w.(pods := w.pods[h := t],
       cluster := if t.pvcName.Some? then TouchPvc(w.cluster, t.pvcName.value, now, f) else w.cluster)
  }

  /** A tracked terminal that is not RUNNING is recycled; its pod deletion is not guarded. */
  function Recycle(cfg: Settings, w: World, h: Hash, now: int, f: Faults): Attempt
    requires h in w.pods
  {
    var t := w.pods[h];
    var c1 := if t.pvcName.None? then w.cluster
              else if cfg.retainPvc then TouchPvc(w.cluster, t.pvcName.value, now, f)
              else DeleteUserPvc(cfg, w.cluster, t.pvcName.value, f);
    var c2 := RemovePod(c1, t.podName, f);
    if c2.None? then Raised(w.(cluster := c1))
    else Done(w.(pods := w.pods - {h}, cluster := c2.value))
  }

  /** The storage part of a creation: shared claim, node of the shared claim, claim of the user. */
  function PrepareStorage(cfg: Settings, w: World, t: TerminalPod, listing: seq<Name>, now: int, f: Faults): Attempt {
    var c1 := EnsureSharedPvc(cfg, w.cluster, now, f);
    if c1.None? then Raised(w)
    else
      var w1 := w.(cluster := c1.value);
      var node := SharedNode(cfg, w.sharedNode, c1.value, listing, f);
      if node.None? then Raised(w1)
      else
        var w2 := w1.(sharedNode := node.value);
        if cfg.mode == PerUser && t.pvcName.Some? then
          var c2 := CreateUserPvc(cfg, w2.cluster, t.pvcName.value, t.hash, now, f);
          if c2.None? then Raised(w2) else Done(w2.(cluster := c2.value))
        else Done(w2)
  }

  /** Secret, then pod, then service; whatever was created before an exception stays. */
  function CreateObjects(w: World, t: TerminalPod, m: Manifests, f: Faults): Attempt {
    var c1 := AddSecret(w.cluster, t.secretName, m.secret, f);
    if c1.None? then Raised(w)
    else
      var c2 := AddPod(c1.value, t.podName, m.pod, f);
      if c2.None? then Raised(w.(cluster := c1.value))
      else
        var c3 := AddService(c2.value, t.serviceName, m.service, f);
        if c3.None? then Raised(w.(cluster := c2.value)) else Done(w.(cluster := c3.value))
  }

  function StartCreation(cfg: Settings, w: World, t: TerminalPod, listing: seq<Name>, now: int, f: Faults): Attempt {
    var a := PrepareStorage(cfg, w, t, listing, now, f);
    if a.Raised? then a
    else
      var m := BuildPodForUser(cfg, t, if cfg.mode == SharedRwo then a.world.sharedNode else None);
      if m.None? then Raised(a.world)
      else
        var b := CreateObjects(a.world, t, m.value, f);
        if b.Raised? then b else Done(b.world.(creating := Some(InProgress(t, None))))
  }

  /** Capacity: one eviction when the dictionary is full. */
  function MakeRoom(cfg: Settings, w: World, order: seq<Hash>, now: int, f: Faults): World {
    if |w.pods| >= cfg.maxPods then EvictOldest(cfg, w, order, now, f) else w
  }

  /** `get_or_create` from taking the lock to its answer or its first suspension. */
  function GetOrCreate(cfg: Settings, w: World, r: Request, f: Faults): Attempt {
    if IsHit(w, r.hash) then Done(Touched(cfg, w, r.hash, r.now, f))
    else
      var a := if r.hash in w.pods then Recycle(cfg, w, r.hash, r.now, f) else Done(w);
      if a.Raised? then a
      else StartCreation(cfg, MakeRoom(cfg, a.world, r.order, r.now, f),
                         Create(cfg, r.userId, r.hash, r.key, r.now), r.listing, r.now, f)
  }

  /** The rest of `get_or_create` once the wait has answered (ready, ip). */
  function FinishCreation(w: World, ready: bool, ip: Option<string>, f: Faults): World
    requires w.creating.Some?
  {
    var t := w.creating.value.terminal;
    var freed := w.(creating := None);
    if ready && Truthy(ip) then
      freed.(pods := w.pods[t.hash := t.(state := PodState.Running, podIp := ip)])
    else
      var c1 := RemoveService(w.cluster, t.serviceName, f);
      if c1.None? then freed
      else
        var c2 := RemovePod(c1.value, t.podName, f);
        if c2.None? then freed.(cluster := c1.value)
        else freed.(cluster := Swallow(RemoveSecret(c2.value, t.secretName, f), c2.value))
  }

  // ---------- Starting up ----------

  /** The key stored in a secret, or the fresh key `key` when there is none; None when reading raises. */
  function StoredKey(c: Cluster, n: Name, key: ApiKey, f: Faults): Option<ApiKey> {
    if On(GetSecret, n) in f then None
    else if n in c.secrets && c.secrets[n].apiKey.Some? then DecodeKey(c.secrets[n].apiKey.value)
    else Some(key)
  }

  function Adopted(cfg: Settings, n: Name, p: Pod, h: Hash, key: ApiKey, now: int): TerminalPod {
    TerminalPod(h, h, n, TerminalName(h), SecretName(h),
                if cfg.mode == PerUser then Some(UserPvcName(h)) else None,
                key, PodState.Running, now, p.ip)
  }

  /** One listed pod is adopted if Running and removed otherwise; any exception ends the whole pass. */
  function ReconcileOne(cfg: Settings, w: World, n: Name, p: Pod, now: int, key: ApiKey, f: Faults): Attempt {
    if !Truthy(p.labels.user) then Done(w)
    else
      var h := p.labels.user.value;
      if p.phase == Phase.Running then
        var stored := StoredKey(w.cluster, SecretName(h), key, f);
        if stored.None? then Raised(w)
        else Done(w.(pods := w.pods[h := Adopted(cfg, n, p, h, stored.value, now)]))
      else
        var c1 := RemoveService(w.cluster, TerminalName(h), f);
        if c1.None? then Raised(w)
        else
          var c2 := RemovePod(c1.value, n, f);
          if c2.None? then Raised(w.(cluster := c1.value))
          else
            var c3 := RemoveSecret(c2.value, SecretName(h), f);
            if c3.None? then Raised(w.(cluster := c2.value)) else Done(w.(cluster := c3.value))
  }

  /** What start-up reads from outside: the list order, a clock reading and a fresh key per listed pod. */
  datatype Boot = Boot(listing: seq<Name>, clock: seq<int>, keys: seq<ApiKey>)

  function ReconcileFirst(cfg: Settings, w: World, listed: seq<Pod>, names: seq<Name>, boot: Boot, f: Faults): Attempt
    requires |names| == |listed| && |names| <= |boot.clock| && |names| <= |boot.keys|
  {
    if names == [] then Done(w)
    else
      var k := |names| - 1;
      var a := ReconcileFirst(cfg, w, listed[..k], names[..k], boot, f);
      if a.Raised? then a
      else ReconcileOne(cfg, a.world, names[k], listed[k], boot.clock[k], boot.keys[k], f)
  }

  /** The pods of a list answer, as they were when listed. */
  function Snapshot(c: Cluster, names: seq<Name>): seq<Pod>
    requires forall n :: n in names ==> n in c.pods
  {
    seq(|names|, i requires 0 <= i < |names| => c.pods[names[i]])
  }

  predicate BootFits(cfg: Settings, c: Cluster, boot: Boot) {
    |boot.clock| >= |boot.listing| && |boot.keys| >= |boot.listing|
  }

  lemma {:induction false} ListedFit(c: Cluster, app: string, managedBy: string, order: seq<Name>)
    ensures |ListedPods(c, app, managedBy, order)| <= |order|
    ensures forall n :: n in ListedPods(c, app, managedBy, order) ==> n in c.pods
  {
    if order == [] {
    } else {
      ListedFit(c, app, managedBy, order[..|order| - 1]);
    }
  }

  /** `_reconcile_existing_pods` on a manager that has just been constructed. */
  function Reconcile(cfg: Settings, w: World, boot: Boot, f: Faults): World
    requires BootFits(cfg, w.cluster, boot)
  {
    if ListPods in f then w
    else
      var names := ListedPods(w.cluster, cfg.app, cfg.managedBy, boot.listing);
      ListedFit(w.cluster, cfg.app, cfg.managedBy, boot.listing);
      ReconcileFirst(cfg, w, Snapshot(w.cluster, names), names, boot, f).world
  }

  /** A crash loses everything but the cluster; the new process starts by reconciling. */
  function Restart(cfg: Settings, w: World, boot: Boot, f: Faults): World
    requires BootFits(cfg, w.cluster, boot)
  {
    Reconcile(cfg, World(map[], None, None, w.cluster), boot, f)
  }
}
