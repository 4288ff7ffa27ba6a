/** What holds of the tracked terminals at every yield point, whatever the API does: failing calls,
    cancelled requests and an arbitrary cluster included. */
module Tracking {
  import opened Basics
  import opened Names
  import opened Terminals
  import opened ClusterModel
  import opened Lifecycle
  import opened Runs

  /** Keys are hashes, tracked terminals are RUNNING, and a creation in progress is not tracked. */
  ghost predicate Tracked(w: World) {
    && (forall h :: h in w.pods ==> w.pods[h].hash == h && w.pods[h].state == PodState.Running)
    && (w.creating.Some? ==> w.creating.value.terminal.hash !in w.pods)
  }

  /** The state of a process that has not started yet, over any cluster. */
  ghost predicate Initial(w: World) {
    w.pods == map[] && w.creating.None? && w.sharedNode.None?
  }

  lemma InitialIsTracked(w: World)
    requires Initial(w)
    ensures Tracked(w)
  {
  }

  lemma {:induction false} ReconcileFirstTracked(
    cfg: Settings, w: World, listed: seq<Pod>, names: seq<Name>, boot: Boot, f: Faults)
    requires |names| == |listed| && |names| <= |boot.clock| && |names| <= |boot.keys|
    requires Tracked(w) && w.creating.None?
    ensures var v := ReconcileFirst(cfg, w, listed, names, boot, f).world;
            Tracked(v) && v.creating.None?
  {
    if names == [] {
    } else {
      var k := |names| - 1;
      ReconcileFirstTracked(cfg, w, listed[..k], names[..k], boot, f);
    }
  }

  lemma RestartTracked(cfg: Settings, w: World, boot: Boot, f: Faults)
    requires BootFits(cfg, w.cluster, boot)
    ensures Tracked(Restart(cfg, w, boot, f)) && Restart(cfg, w, boot, f).creating.None?
  {
    if ListPods !in f {
      var v := World(map[], None, None, w.cluster);
      var names := ListedPods(v.cluster, cfg.app, cfg.managedBy, boot.listing);
      ListedFit(v.cluster, cfg.app, cfg.managedBy, boot.listing);
      ReconcileFirstTracked(cfg, v, Snapshot(v.cluster, names), names, boot, f);
    }
  }

  /** Since every tracked terminal is RUNNING, a request either touches one or starts a creation. */
  lemma AskUnfolds(cfg: Settings, w: World, r: Request, f: Faults)
    requires Tracked(w)
    ensures GetOrCreate(cfg, w, r, f)
            == if r.hash in w.pods then Done(Touched(cfg, w, r.hash, r.now, f))
               else StartCreation(cfg, MakeRoom(cfg, w, r.order, r.now, f),
                                  Create(cfg, r.userId, r.hash, r.key, r.now), r.listing, r.now, f)
  {
  }

  /** The tracked terminals after a request: a touched entry, or room for one more. */
  lemma AskShape(cfg: Settings, w: World, r: Request, f: Faults)
    requires Tracked(w) && w.creating.None? && Enumerates(r.order, w.pods.Keys)
    ensures var a := GetOrCreate(cfg, w, r, f);
            if r.hash in w.pods then
              && a.Done? && a.world.creating.None?
              && a.world.pods == w.pods[r.hash := w.pods[r.hash].(lastActiveAt := r.now)]
            else
              && a.world.pods == MakeRoom(cfg, w, r.order, r.now, f).pods
              && var t := Create(cfg, r.userId, r.hash, r.key, r.now);
                 a.world.creating == if a.Done? then Some(InProgress(t, None)) else None
  {
    if r.hash !in w.pods {
      var v := MakeRoom(cfg, w, r.order, r.now, f);
      MakeRoomShape(cfg, w, r.order, r.now, f);
      StartCreationShape(cfg, v, Create(cfg, r.userId, r.hash, r.key, r.now), r.listing, r.now, f);
    }
  }

  lemma AskKeepsTracked(cfg: Settings, w: World, r: Request, f: Faults)
    requires Tracked(w) && w.creating.None? && Enumerates(r.order, w.pods.Keys)
    ensures Tracked(GetOrCreate(cfg, w, r, f).world)
  {
    hide GetOrCreate, MakeRoom, Enumerates, Oldest, Create;
    AskShape(cfg, w, r, f);
    if r.hash !in w.pods {
      MakeRoomShape(cfg, w, r.order, r.now, f);
      assert Create(cfg, r.userId, r.hash, r.key, r.now).hash == r.hash;
    }
  }

  lemma SweepsKeepTracked(cfg: Settings, w: World, order: seq<Hash>, now: int, f: Faults)
    requires Tracked(w)
    ensures Tracked(CleanupIdle(cfg, w, order, now, f)) && Tracked(CheckHealth(cfg, w, order, now, f))
  {
    hide DropAll;
    DropAllShape(cfg, w, IdleAmong(cfg, w.pods, now, order), now, f);
    DropAllShape(cfg, RefreshAll(w, f), UnhealthyAmong(w, f, order), now, f);
  }

  lemma TrackedStep(cfg: Settings, w: World, e: Event)
    requires Tracked(w) && Enabled(cfg, w, e)
    ensures Tracked(Next(cfg, w, e))
  {
    hide GetOrCreate, Restart, CleanupIdle, CheckHealth, Enumerates;
    match e
    case Ask(r, f) => AskKeepsTracked(cfg, w, r, f);
    case Poll =>
    case Answer(_, _, _) =>
    case Abandon =>
    case IdleSweep(order, now, f) => SweepsKeepTracked(cfg, w, order, now, f);
    case HealthSweep(order, now, f) => SweepsKeepTracked(cfg, w, order, now, f);
    case PvcSweep(_, _, _) =>
    case Environment(_) =>
    case CrashAndRestart(boot, f) => RestartTracked(cfg, w, boot, f);
  }

  /** At every yield point of every run each key equals its terminal's hash, each tracked terminal
      is RUNNING, and the user whose pod is starting is not tracked. */
  lemma {:induction false} TrackedMeansRunning(cfg: Settings, ws: seq<World>, es: seq<Event>)
    requires IsRun(cfg, ws, es) && Initial(ws[0])
    ensures forall i :: 0 <= i < |ws| ==> Tracked(ws[i])
    decreases |es|
  {
    hide Tracked, Next, Enabled;
    if es == [] {
      InitialIsTracked(ws[0]);
    } else {
      RunPrefix(cfg, ws, es);
      TrackedMeansRunning(cfg, ws[..|ws| - 1], es[..|es| - 1]);
      TrackedStep(cfg, ws[|es| - 1], es[|es| - 1]);
    }
  }

  /** Consequences for each request and each finished wait of any run: a tracked user is answered at
      once with a RUNNING terminal, so nothing is ever recycled; a finished creation inserts a
      RUNNING terminal under a key that was free, and leaves all other entries alone. */
  lemma RequestsAnswerRunning(cfg: Settings, ws: seq<World>, es: seq<Event>, i: nat)
    requires IsRun(cfg, ws, es) && Initial(ws[0]) && i < |es|
    ensures es[i].Ask? ==>
              var h := es[i].request.hash;
              && (h in ws[i].pods <==> IsHit(ws[i], h))
              && (h in ws[i].pods ==> IsHit(ws[i + 1], h) && ws[i + 1].creating.None?)
    ensures es[i].Answer? && es[i].ready && Truthy(es[i].ip) ==>
              var h := ws[i].creating.value.terminal.hash;
              && h !in ws[i].pods && IsHit(ws[i + 1], h) && ws[i + 1].pods - {h} == ws[i].pods
              && ws[i + 1].pods[h].podIp == es[i].ip
              && ws[i + 1].pods[h].apiKey == ws[i].creating.value.terminal.apiKey
  {
    TrackedMeansRunning(cfg, ws, es);
    assert ws[i + 1] == Next(cfg, ws[i], es[i]);
    if es[i].Ask? {
      AskShape(cfg, ws[i], es[i].request, es[i].faults);
    }
  }

  /** A health sweep keeps exactly the terminals whose pod could not be read, or exists and is neither
      Failed nor Unknown. These stay as they were, but for the address: that becomes the pod's if the pod
      could be read and is Running, whatever it was before. */
  lemma HealthSweepEffect(cfg: Settings, w: World, order: seq<Hash>, now: int, f: Faults)
    requires Tracked(w) && Enumerates(order, w.pods.Keys)
    ensures var v := CheckHealth(cfg, w, order, now, f);
            && (forall h :: h in v.pods <==>
                  && h in w.pods
                  && var n := w.pods[h].podName;
                     On(GetPod, n) in f
                     || (n in w.cluster.pods && w.cluster.pods[n].phase in {Pending, Phase.Running, Succeeded}))
            && (forall h :: h in v.pods ==>
                  var n := w.pods[h].podName;
                  v.pods[h] == if On(GetPod, n) !in f && w.cluster.pods[n].phase == Phase.Running
                               then w.pods[h].(podIp := w.cluster.pods[n].ip) else w.pods[h])
  {
    DropAllShape(cfg, RefreshAll(w, f), UnhealthyAmong(w, f, order), now, f);
    UnhealthyAmongMembers(w, f, order);
  }

  // ---------- Capacity ----------

  /** Tracked terminals plus the one being created. */
  function Load(w: World): nat {
    |w.pods| + if w.creating.Some? then 1 else 0
  }

  lemma AskKeepsCapacity(cfg: Settings, w: World, r: Request, f: Faults, bound: int)
    requires Tracked(w) && w.creating.None? && Enumerates(r.order, w.pods.Keys)
    requires bound >= 1 && bound >= cfg.maxPods && Load(w) <= bound
    ensures Load(GetOrCreate(cfg, w, r, f).world) <= bound
  {
    AskShape(cfg, w, r, f);
    MakeRoomShape(cfg, w, r.order, r.now, f);
    var v := GetOrCreate(cfg, w, r, f).world;
    if r.hash in w.pods {
      assert v.pods.Keys == w.pods.Keys;
      SameKeysSameSize(v.pods, w.pods);
    } else if |w.pods| >= cfg.maxPods && w.pods != map[] {
      var h := Oldest(w.pods, r.order).value;
      OneKeyLess(w.pods, h);
    }
  }

  lemma CapacityStep(cfg: Settings, w: World, e: Event, bound: int)
    requires Tracked(w) && Enabled(cfg, w, e) && !e.CrashAndRestart?
    requires bound >= 1 && bound >= cfg.maxPods && Load(w) <= bound
    ensures Load(Next(cfg, w, e)) <= bound
  {
    match e
    case Ask(r, f) => AskKeepsCapacity(cfg, w, r, f, bound);
    case Poll =>
    case Answer(_, _, _) =>
    case Abandon =>
    case IdleSweep(order, now, f) =>
      DropAllShape(cfg, w, IdleAmong(cfg, w.pods, now, order), now, f);
      KeysShrink(Next(cfg, w, e).pods, w.pods);
    case HealthSweep(order, now, f) =>
      DropAllShape(cfg, RefreshAll(w, f), UnhealthyAmong(w, f, order), now, f);
      KeysShrink(Next(cfg, w, e).pods, w.pods);
    case PvcSweep(_, _, _) =>
    case Environment(_) =>
  }

  lemma OneKeyLess(a: map<Hash, TerminalPod>, h: Hash)
    requires h in a
    ensures |a - {h}| == |a| - 1
  {
    assert (a - {h}).Keys == a.Keys - {h};
    assert |(a - {h}).Keys| == |a - {h}|;
  }

  lemma SameKeysSameSize(a: map<Hash, TerminalPod>, b: map<Hash, TerminalPod>)
    requires a.Keys == b.Keys
    ensures |a| == |b|
  {
    assert |a| == |a.Keys| && |b| == |b.Keys|;
  }

  lemma KeysShrink(a: map<Hash, TerminalPod>, b: map<Hash, TerminalPod>)
    requires a.Keys <= b.Keys
    ensures |a| <= |b|
  {
    assert b.Keys == a.Keys + (b.Keys - a.Keys);
    assert |a| == |a.Keys| && |b| == |b.Keys|;
  }

  /** From the end of start-up to the next crash, under any faults, tracked plus starting terminals
      never exceed max(1, max_concurrent_pods, number adopted at start-up). */
  lemma {:induction false} CapacityIsKept(cfg: Settings, ws: seq<World>, es: seq<Event>)
    requires IsRun(cfg, ws, es) && Tracked(ws[0]) && ws[0].creating.None?
    requires forall i :: 0 <= i < |es| ==> !es[i].CrashAndRestart?
    ensures forall i :: 0 <= i < |ws| ==>
              Tracked(ws[i]) && Load(ws[i]) <= Max(1, Max(cfg.maxPods, |ws[0].pods|))
    decreases |es|
  {
    hide Tracked, Next, Enabled;
    if es == [] {
    } else {
      RunPrefix(cfg, ws, es);
      CapacityIsKept(cfg, ws[..|ws| - 1], es[..|es| - 1]);
      var n := |es| - 1;
      TrackedStep(cfg, ws[n], es[n]);
      CapacityStep(cfg, ws[n], es[n], Max(1, Max(cfg.maxPods, |ws[0].pods|)));
    }
  }
}
