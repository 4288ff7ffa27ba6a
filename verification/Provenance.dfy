/** What the proxy itself ever writes into the cluster: well-formed names and plain time stamps.
    Holds under arbitrary API faults. */
module Provenance {
  import opened Basics
  import opened Names
  import opened Base64
  import opened Terminals
  import opened ClusterModel
  import opened PodBuilder
  import opened Storage
  import opened Lifecycle
  import opened Runs
  import opened Tracking
  import opened Agreement
  import opened Recovery

  ghost predicate ProperNames(names: set<Name>) {
    forall n :: n in names ==> n.WellFormed()
  }

  /** Every object name is well formed, and no claim carries a time with a UTC offset. */
  ghost predicate Proper(c: Cluster) {
    && ProperNames(c.pods.Keys) && ProperNames(c.services.Keys)
    && ProperNames(c.secrets.Keys) && ProperNames(c.pvcs.Keys)
    && forall n :: n in c.pvcs ==> !c.pvcs[n].lastActive.Zoned?
  }

  lemma RemovalsStayProper(c: Cluster, n: Name, f: Faults)
    requires Proper(c)
    ensures Proper(Swallow(RemovePod(c, n, f), c)) && Proper(Swallow(RemoveService(c, n, f), c))
    ensures Proper(Swallow(RemoveSecret(c, n, f), c)) && Proper(Swallow(RemovePvc(c, n, f), c))
  {
  }

  lemma TouchPvcStaysProper(c: Cluster, n: Name, now: int, f: Faults)
    requires Proper(c)
    ensures Proper(TouchPvc(c, n, now, f))
  {
  }

  lemma TearDownStaysProper(cfg: Settings, c: Cluster, t: TerminalPod, now: int, f: Faults)
    requires Proper(c)
    ensures Proper(TearDown(cfg, c, t, now, f))
  {
    hide Proper, RemovePod, RemoveService, RemoveSecret, RemovePvc, TouchPvc, Swallow;
    RemovalsStayProper(c, t.serviceName, f);
    var c1 := Swallow(RemoveService(c, t.serviceName, f), c);
    RemovalsStayProper(c1, t.podName, f);
    var c2 := Swallow(RemovePod(c1, t.podName, f), c1);
    RemovalsStayProper(c2, t.secretName, f);
    var c3 := Swallow(RemoveSecret(c2, t.secretName, f), c2);
    if t.pvcName.Some? {
      RemovalsStayProper(c3, t.pvcName.value, f);
      TouchPvcStaysProper(c3, t.pvcName.value, now, f);
    }
  }

  lemma {:induction false} DropAllStaysProper(cfg: Settings, w: World, hs: seq<Hash>, now: int, f: Faults)
    requires Proper(w.cluster)
    ensures Proper(DropAll(cfg, w, hs, now, f).cluster)
  {
    hide Proper, TearDown;
    if hs == [] {
    } else {
      var h := hs[|hs| - 1];
      var v := DropAll(cfg, w, hs[..|hs| - 1], now, f);
      DropAllStaysProper(cfg, w, hs[..|hs| - 1], now, f);
      if h in v.pods {
        TearDownStaysProper(cfg, v.cluster, v.pods[h], now, f);
      }
    }
  }

  lemma PrepareStaysProper(cfg: Settings, w: World, t: TerminalPod, listing: seq<Name>, now: int, f: Faults)
    requires Proper(w.cluster) && t.Named(t.hash) && IsHash(t.hash)
    ensures Proper(PrepareStorage(cfg, w, t, listing, now, f).world.cluster)
  {
    hide SharedNode;
  }

  lemma CreateStaysProper(w: World, t: TerminalPod, m: Manifests, f: Faults)
    requires Proper(w.cluster) && t.Named(t.hash) && IsHash(t.hash)
    ensures Proper(CreateObjects(w, t, m, f).world.cluster)
  {
  }

  lemma StartStaysProper(cfg: Settings, w: World, t: TerminalPod, listing: seq<Name>, now: int, f: Faults)
    requires Proper(w.cluster) && t.Named(t.hash) && IsHash(t.hash)
    ensures Proper(StartCreation(cfg, w, t, listing, now, f).world.cluster)
  {
    hide Proper, PrepareStorage, BuildPodForUser, CreateObjects;
    PrepareStaysProper(cfg, w, t, listing, now, f);
    var a := PrepareStorage(cfg, w, t, listing, now, f);
    var m := BuildPodForUser(cfg, t, if cfg.mode == SharedRwo then a.world.sharedNode else None);
    if a.Done? && m.Some? {
      CreateStaysProper(a.world, t, m.value, f);
    }
  }

  lemma MakeRoomStaysProper(cfg: Settings, w: World, order: seq<Hash>, now: int, f: Faults)
    requires Proper(w.cluster)
    ensures Proper(MakeRoom(cfg, w, order, now, f).cluster)
  {
    hide Proper, TearDown;
    if |w.pods| >= cfg.maxPods && Oldest(w.pods, order).Some? {
      TearDownStaysProper(cfg, w.cluster, w.pods[Oldest(w.pods, order).value], now, f);
    }
  }

  lemma TouchStaysProper(cfg: Settings, w: World, h: Hash, now: int, f: Faults)
    requires Proper(w.cluster) && h in w.pods
    ensures Proper(Touched(cfg, w, h, now, f).cluster)
  {
  }

  lemma AskStaysProper(cfg: Settings, w: World, r: Request, f: Faults)
    requires Proper(w.cluster) && Tracked(w) && IsHash(r.hash)
    ensures Proper(GetOrCreate(cfg, w, r, f).world.cluster)
  {
    hide Proper, GetOrCreate, MakeRoom, StartCreation, Touched;
    AskUnfolds(cfg, w, r, f);
    if r.hash in w.pods {
      TouchStaysProper(cfg, w, r.hash, r.now, f);
    } else {
      MakeRoomStaysProper(cfg, w, r.order, r.now, f);
      var t := Create(cfg, r.userId, r.hash, r.key, r.now);
      StartStaysProper(cfg, MakeRoom(cfg, w, r.order, r.now, f), t, r.listing, r.now, f);
    }
  }

  lemma FinishStaysProper(w: World, ready: bool, ip: Option<string>, f: Faults)
    requires Proper(w.cluster) && w.creating.Some?
    ensures Proper(FinishCreation(w, ready, ip, f).cluster)
  {
  }

  lemma SweepStaysProper(cfg: Settings, c: Cluster, active: set<Hash>, listing: seq<Name>, now: int, f: Faults)
    requires Proper(c)
    ensures Proper(CleanupExpired(cfg, c, active, listing, now, f))
  {
    hide Expired, Reaches;
  }

  lemma ReconcileOneStaysProper(cfg: Settings, w: World, n: Name, p: Pod, now: int, key: ApiKey, f: Faults)
    requires Proper(w.cluster)
    ensures Proper(ReconcileOne(cfg, w, n, p, now, key, f).world.cluster)
  {
  }

  lemma {:induction false} ReconcileStaysProper(
    cfg: Settings, w: World, listed: seq<Pod>, names: seq<Name>, boot: Boot, f: Faults)
    requires |names| == |listed| && |names| <= |boot.clock| && |names| <= |boot.keys|
    requires Proper(w.cluster)
    ensures Proper(ReconcileFirst(cfg, w, listed, names, boot, f).world.cluster)
  {
    hide Proper, ReconcileOne;
    if names == [] {
    } else {
      var k := |names| - 1;
      ReconcileStaysProper(cfg, w, listed[..k], names[..k], boot, f);
      var a := ReconcileFirst(cfg, w, listed[..k], names[..k], boot, f);
      ReconcileOneStaysProper(cfg, a.world, names[k], listed[k], boot.clock[k], boot.keys[k], f);
    }
  }

  lemma RestartStaysProper(cfg: Settings, w: World, boot: Boot, f: Faults)
    requires Proper(w.cluster) && BootFits(cfg, w.cluster, boot)
    ensures Proper(Restart(cfg, w, boot, f).cluster)
  {
    hide Proper;
    if ListPods !in f {
      var v := World(map[], None, None, w.cluster);
      var names := ListedPods(v.cluster, cfg.app, cfg.managedBy, boot.listing);
      ListedFit(v.cluster, cfg.app, cfg.managedBy, boot.listing);
      ReconcileStaysProper(cfg, v, Snapshot(v.cluster, names), names, boot, f);
    }
  }

  lemma ProperStep(cfg: Settings, w: World, e: Event)
    requires Proper(w.cluster) && Tracked(w) && Enabled(cfg, w, e) && (e.Environment? ==> Proper(e.after))
    ensures Proper(Next(cfg, w, e).cluster)
  {
    hide Proper, Tracked, GetOrCreate, FinishCreation, DropAll, CleanupExpired, Restart, Enumerates;
    match e
    case Ask(r, f) => AskStaysProper(cfg, w, r, f);
    case Poll =>
    case Answer(ready, ip, f) => FinishStaysProper(w, ready, ip, f);
    case Abandon =>
    case IdleSweep(order, now, f) => DropAllStaysProper(cfg, w, IdleAmong(cfg, w.pods, now, order), now, f);
    case HealthSweep(order, now, f) => DropAllStaysProper(cfg, RefreshAll(w, f), UnhealthyAmong(w, f, order), now, f);
    case PvcSweep(listing, now, f) => SweepStaysProper(cfg, w.cluster, w.pods.Keys, listing, now, f);
    case Environment(_) =>
    case CrashAndRestart(boot, f) => RestartStaysProper(cfg, w, boot, f);
  }

  /** In every run, whatever calls fail, the cluster stays proper as long as nobody else makes it improper. */
  lemma {:induction false} ClusterStaysProper(cfg: Settings, ws: seq<World>, es: seq<Event>, i: nat)
    requires IsRun(cfg, ws, es) && Initial(ws[0]) && Proper(ws[0].cluster) && i < |ws|
    requires forall j :: 0 <= j < |es| && es[j].Environment? ==> Proper(es[j].after)
    ensures Proper(ws[i].cluster)
    decreases i
  {
    hide Proper, Tracked, Next, Enabled;
    if i == 0 {
    } else {
      ClusterStaysProper(cfg, ws, es, i - 1);
      TrackedMeansRunning(cfg, ws, es);
      assert Enabled(cfg, ws[i - 1], es[i - 1]) && ws[i - 1 + 1] == Next(cfg, ws[i - 1], es[i - 1]);
      ProperStep(cfg, ws[i - 1], es[i - 1]);
    }
  }

  /** So, unless somebody else wrote an offset, no retention sweep is ever cut off. */
  lemma SweepsReachEverything(cfg: Settings, ws: seq<World>, es: seq<Event>, i: nat, n: Name)
    requires IsRun(cfg, ws, es) && Initial(ws[0]) && Proper(ws[0].cluster) && i < |es|
    requires forall j :: 0 <= j < |es| && es[j].Environment? ==> Proper(es[j].after)
    requires es[i].PvcSweep? && n in es[i].listing
    ensures Reaches(ws[i].cluster, ws[i].pods.Keys, es[i].listing, n)
  {
    ClusterStaysProper(cfg, ws, es, i);
    NothingCutsOff(ws[i].cluster, ws[i].pods.Keys, es[i].listing, n);
  }

  /** The names the proxy deals with: those of the cluster's objects and of the live terminals. */
  ghost predicate InUse(w: World, n: Name) {
    || n in w.cluster.pods || n in w.cluster.services || n in w.cluster.secrets || n in w.cluster.pvcs
    || exists h :: Live(w, h) && IsNameOf(TerminalOf(w, h), n)
  }

  predicate IsNameOf(t: TerminalPod, n: Name) {
    n == t.podName || n == t.serviceName || n == t.secretName || t.pvcName == Some(n)
  }

  lemma InUseIsWellFormed(cfg: Settings, w: World, n: Name)
    requires Consistent(cfg, w) && Proper(w.cluster) && InUse(w, n)
    ensures n.WellFormed()
  {
  }

  /** The environment of a fault-free run changes no names or annotations. */
  lemma CleanEnvironmentStaysProper(c: Cluster, d: Cluster)
    requires Proper(c) && EnvironmentMay(c, d)
    ensures Proper(d)
  {
  }

  lemma {:induction false} CleanRunStaysProper(cfg: Settings, ws: seq<World>, es: seq<Event>, i: nat)
    requires IsCleanRun(cfg, ws, es) && Consistent(cfg, ws[0]) && Proper(ws[0].cluster) && i < |ws|
    ensures Proper(ws[i].cluster)
    decreases i
  {
    hide Proper, Consistent, Next, Enabled, EnvironmentMay;
    if i == 0 {
    } else {
      CleanRunStaysProper(cfg, ws, es, i - 1);
      ClusterAgreement(cfg, ws, es);
      ConsistentIsTracked(cfg, ws[i - 1]);
      assert Clean(cfg, ws[i - 1], es[i - 1]) && ws[i - 1 + 1] == Next(cfg, ws[i - 1], es[i - 1]);
      if es[i - 1].Environment? {
        CleanEnvironmentStaysProper(ws[i - 1].cluster, es[i - 1].after);
      }
      ProperStep(cfg, ws[i - 1], es[i - 1]);
    }
  }

  /** In every state of every fault-free run, two names in use that are the same string are the same
      name; so keying the cluster by structured names loses nothing. */
  lemma NamesIdentifyObjects(cfg: Settings, ws: seq<World>, es: seq<Event>, i: nat, m: Name, n: Name)
    requires IsCleanRun(cfg, ws, es) && Consistent(cfg, ws[0]) && Proper(ws[0].cluster) && i < |ws|
    requires InUse(ws[i], m) && InUse(ws[i], n) && m.Render() == n.Render()
    ensures m == n
  {
    hide IsCleanRun, Consistent, Proper, InUse;
    CleanRunStaysProper(cfg, ws, es, i);
    ClusterAgreement(cfg, ws, es);
    InUseIsWellFormed(cfg, ws[i], m);
    InUseIsWellFormed(cfg, ws[i], n);
    RenderIsInjective(m, n);
  }
}
