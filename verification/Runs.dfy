/** Runs of the whole system: every interleaving of requests, sweeps, environment changes and restarts. */
module Runs {
  import opened Basics
  import opened Names
  import opened Terminals
  import opened ClusterModel
  import opened Storage
  import opened Lifecycle

  /** The atomic steps. `Ask` is `get_or_create` up to its answer or its wait, `Poll` one readiness
      poll, `Answer` the end of the wait, `Abandon` a wait ended by an exception or a cancellation. */
  datatype Event =
    | Ask(request: Request, faults: Faults)
    | Poll
    | Answer(ready: bool, ip: Option<string>, faults: Faults)
    | Abandon
    | IdleSweep(order: seq<Hash>, now: int, faults: Faults)
    | HealthSweep(order: seq<Hash>, now: int, faults: Faults)
    | PvcSweep(listing: seq<Name>, now: int, faults: Faults)
    | Environment(after: Cluster)
    | CrashAndRestart(boot: Boot, faults: Faults)

  /** What the lock and the event loop guarantee: while a creation waits, no other request is inside. */
  ghost predicate Enabled(cfg: Settings, w: World, e: Event) {
    match e
    case Ask(r, _) => w.creating.None? && Enumerates(r.order, w.pods.Keys) && IsHash(r.hash)
    case Poll => w.creating.Some?
    case Answer(_, _, _) => w.creating.Some?
    case Abandon => w.creating.Some?
    case IdleSweep(order, _, _) => Enumerates(order, w.pods.Keys)
    case HealthSweep(order, _, _) => Enumerates(order, w.pods.Keys)
    case PvcSweep(_, _, _) => true
    case Environment(_) => true
    case CrashAndRestart(boot, _) => BootFits(cfg, w.cluster, boot)
  }

  /** A poll that finds the pod Running remembers its address. */
  function Polled(w: World): World
    requires w.creating.Some?
  {
    var t := w.creating.value.terminal;
    if t.podName in w.cluster.pods && w.cluster.pods[t.podName].phase == Phase.Running
       && Truthy(w.cluster.pods[t.podName].ip)
    then w.(creating := Some(InProgress(t, w.cluster.pods[t.podName].ip)))
    else w
  }

  ghost function Next(cfg: Settings, w: World, e: Event): World
    requires Enabled(cfg, w, e)
  {
    match e
    case Ask(r, f) => GetOrCreate(cfg, w, r, f).world
    case Poll => Polled(w)
    case Answer(ready, ip, f) => FinishCreation(w, ready, ip, f)
    case Abandon => w.(creating := None)
    case IdleSweep(order, now, f) => CleanupIdle(cfg, w, order, now, f)
    case HealthSweep(order, now, f) => CheckHealth(cfg, w, order, now, f)
    case PvcSweep(listing, now, f) => w.(cluster := CleanupExpired(cfg, w.cluster, w.pods.Keys, listing, now, f))
    case Environment(after) => w.(cluster := after)
    case CrashAndRestart(boot, f) => Restart(cfg, w, boot, f)
  }

  /** `ws` are the states at the yield points of a run that performs the events `es`. */
  ghost predicate IsRun(cfg: Settings, ws: seq<World>, es: seq<Event>) {
    && |ws| == |es| + 1
    && forall i :: 0 <= i < |es| ==> Enabled(cfg, ws[i], es[i]) && ws[i + 1] == Next(cfg, ws[i], es[i])
  }

  lemma RunPrefix(cfg: Settings, ws: seq<World>, es: seq<Event>)
    requires IsRun(cfg, ws, es) && es != []
    ensures IsRun(cfg, ws[..|ws| - 1], es[..|es| - 1])
  {
  }

  // ---------- Fault-free steps ----------

  /** A list answer contains every pod, once. */
  ghost predicate Complete(listing: seq<Name>, c: Cluster) {
    NoDuplicates(listing) && forall n :: n in c.pods ==> n in listing
  }

  /** Only pods change: their phase and address freely, and an unscheduled pod may get a node, which
      it keeps. A Running pod has a node. Pods may vanish; nothing is created by others. */
  ghost predicate EnvironmentMay(c: Cluster, d: Cluster) {
    && d.services == c.services && d.secrets == c.secrets && d.pvcs == c.pvcs
    && forall n :: n in d.pods ==> n in c.pods && PodMayBecome(c.pods[n], d.pods[n])
  }

  ghost predicate PodMayBecome(p: Pod, q: Pod) {
    && q.labels == p.labels && q.claim == p.claim && q.subPath == p.subPath && q.keyRef == p.keyRef
    && (if p.node.Some? then q.node == p.node else q.node.None? || Truthy(q.node))
    && (q.phase == Phase.Running ==> Truthy(q.node))
  }

  /** No API call raises, no wait is cut off, list answers are complete, and a wait answers success
      only with the address that a poll saw. */
  ghost predicate Clean(cfg: Settings, w: World, e: Event) {
    && Enabled(cfg, w, e)
    && match e
       case Ask(r, f) => f == NO_FAULTS && Complete(r.listing, w.cluster)
       case Poll => true
       case Answer(ready, ip, f) => f == NO_FAULTS && (ready && Truthy(ip) ==> w.creating.value.seen == ip)
       case Abandon => false
       case IdleSweep(_, _, f) => f == NO_FAULTS
       case HealthSweep(_, _, f) => f == NO_FAULTS
       case PvcSweep(listing, _, f) => f == NO_FAULTS && forall n :: n in w.cluster.pvcs ==> n in listing
       case Environment(after) => EnvironmentMay(w.cluster, after)
       case CrashAndRestart(boot, f) => f == NO_FAULTS && Complete(boot.listing, w.cluster)
  }

  ghost predicate IsCleanRun(cfg: Settings, ws: seq<World>, es: seq<Event>) {
    IsRun(cfg, ws, es) && forall i :: 0 <= i < |es| ==> Clean(cfg, ws[i], es[i])
  }

  /** The environment deletes no pod object. */
  ghost predicate NoKill(w: World, e: Event) {
    e.Environment? ==> e.after.pods.Keys == w.cluster.pods.Keys
  }

  // ---------- What each operation leaves alone ----------

  lemma {:induction false} DropAllShape(cfg: Settings, w: World, hs: seq<Hash>, now: int, f: Faults)
    ensures var v := DropAll(cfg, w, hs, now, f);
            && v.pods == (map h | h in w.pods && h !in hs :: w.pods[h])
            && v.creating == w.creating && v.sharedNode == w.sharedNode
  {
    if hs == [] {
    } else {
      DropAllShape(cfg, w, hs[..|hs| - 1], now, f);
      assert hs == hs[..|hs| - 1] + [hs[|hs| - 1]];
    }
  }

  lemma {:induction false} IdleAmongMembers(cfg: Settings, pods: map<Hash, TerminalPod>, now: int, order: seq<Hash>)
    ensures forall h :: h in IdleAmong(cfg, pods, now, order) <==> h in order && Idle(cfg, pods, now, h)
  {
    if order == [] {
    } else {
      IdleAmongMembers(cfg, pods, now, order[..|order| - 1]);
    }
  }

  lemma {:induction false} UnhealthyAmongMembers(w: World, f: Faults, order: seq<Hash>)
    ensures forall h :: h in UnhealthyAmong(w, f, order) <==> h in order && Unhealthy(w, f, h)
  {
    if order == [] {
    } else {
      UnhealthyAmongMembers(w, f, order[..|order| - 1]);
    }
  }

  /** A creation touches neither the tracked terminals nor, unless it succeeds, the lock holder. */
  lemma StartCreationShape(cfg: Settings, w: World, t: TerminalPod, listing: seq<Name>, now: int, f: Faults)
    ensures var a := StartCreation(cfg, w, t, listing, now, f);
            && a.world.pods == w.pods
            && a.world.creating == if a.Done? then Some(InProgress(t, None)) else w.creating
  {
    var a := PrepareStorage(cfg, w, t, listing, now, f);
    assert a.world.pods == w.pods && a.world.creating == w.creating;
  }

  /** A full dictionary loses its least recently active terminal, and nothing else changes in it. */
  lemma MakeRoomShape(cfg: Settings, w: World, order: seq<Hash>, now: int, f: Faults)
    requires Enumerates(order, w.pods.Keys)
    ensures var v := MakeRoom(cfg, w, order, now, f);
            && v.creating == w.creating && v.sharedNode == w.sharedNode
            && if |w.pods| >= cfg.maxPods && w.pods != map[]
               then Oldest(w.pods, order).Some? && v.pods == w.pods - {Oldest(w.pods, order).value}
               else v == w
  {
    if |w.pods| >= cfg.maxPods && w.pods != map[] {
      var h :| h in w.pods;
      assert h in order;
    }
  }

  /** The pods of `d` are pods of `c`, as they were. */
  ghost predicate OnlyPodsOf(c: Cluster, d: Cluster) {
    forall n :: n in d.pods ==> n in c.pods && d.pods[n] == c.pods[n]
  }

  lemma {:induction false} DropAllShrinksPods(cfg: Settings, w: World, hs: seq<Hash>, now: int)
    ensures OnlyPodsOf(w.cluster, DropAll(cfg, w, hs, now, NO_FAULTS).cluster)
  {
    if hs == [] {
    } else {
      DropAllShrinksPods(cfg, w, hs[..|hs| - 1], now);
    }
  }

  lemma MakeRoomShrinksPods(cfg: Settings, w: World, order: seq<Hash>, now: int)
    ensures OnlyPodsOf(w.cluster, MakeRoom(cfg, w, order, now, NO_FAULTS).cluster)
  {
  }
}
