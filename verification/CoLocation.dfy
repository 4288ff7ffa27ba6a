/** Shared read-write-once storage: every pod that mounts the shared claim is on one node, although
    the first pod is not pinned and the node is only remembered later; and exactly when a cut-off wait
    can break this. */
module CoLocation {
  import opened Basics
  import opened Names
  import opened Base64
  import opened Terminals
  import opened ClusterModel
  import opened PodBuilder
  import opened Storage
  import opened Lifecycle
  import opened Runs
  import opened Tracking
  import opened Agreement
  import opened Recovery
  import opened Interruptions

  /** `p` runs on some node with the shared claim mounted. */
  predicate MountsSharedOn(p: Pod) {
    p.claim == Some(SharedPvcName) && p.node.Some?
  }

  /** Scheduled pods that mount the shared claim are all on the same node. */
  ghost predicate OneNode(c: Cluster) {
    forall m, n :: m in c.pods && n in c.pods && MountsSharedOn(c.pods[m]) && MountsSharedOn(c.pods[n])
                   ==> c.pods[m].node == c.pods[n].node
  }

  predicate Unscheduled(c: Cluster, n: Name) {
    n in c.pods && c.pods[n].node.None?
  }

  /** Pods of tracked users are scheduled. */
  ghost predicate TrackedAreScheduled(w: World) {
    forall h :: h in w.pods ==> !Unscheduled(w.cluster, TerminalName(h))
  }

  /** Every scheduled pod is at `home`; a pod may lack a node only if it is the only pod and there is no
      home yet; a Running pod does not. */
  ghost predicate PodsAt(c: Cluster, home: Option<string>) {
    && (forall n :: n in c.pods && c.pods[n].node.Some? ==> c.pods[n].node == home && Truthy(home))
    && (forall n :: Unscheduled(c, n) ==> home.None? && forall m :: m in c.pods ==> m == n)
    && (forall n :: n in c.pods && c.pods[n].phase == Phase.Running ==> c.pods[n].node.Some?)
  }

  /** Why the pods stay together: besides, the remembered node, if any, is the home, and pods seen
      Running are scheduled. */
  ghost predicate PinnedAt(w: World, home: Option<string>) {
    && PodsAt(w.cluster, home)
    && TrackedAreScheduled(w)
    && (Truthy(w.sharedNode) ==> w.sharedNode == home)
    && (w.creating.Some? && Truthy(w.creating.value.seen) ==>
          !Unscheduled(w.cluster, TerminalName(w.creating.value.terminal.hash)))
  }

  lemma PinnedIsOneNode(w: World, home: Option<string>)
    requires PinnedAt(w, home)
    ensures OneNode(w.cluster)
  {
  }

  /** Removing pods, or changing what is not about pods, keeps the pins. */
  lemma FewerPodsStayPinned(w: World, v: World, home: Option<string>)
    requires PinnedAt(w, home) && OnlyPodsOf(w.cluster, v.cluster) && v.pods.Keys <= w.pods.Keys
    requires Truthy(v.sharedNode) ==> v.sharedNode == home
    requires v.creating == w.creating || v.creating.None?
    ensures PinnedAt(v, home)
  {
    forall n | Unscheduled(v.cluster, n) ensures Unscheduled(w.cluster, n) {}
  }

  // ---------- Creations ----------

  ghost predicate ShapedPods(cfg: Settings, c: Cluster) {
    forall n :: n in c.pods ==> n.TerminalName? && ShapedFor(cfg, n.hash, c.pods[n])
  }

  /** In shared-RWO mode with a complete list the search finds the node of some pod, if there is one. */
  lemma SearchFindsANode(cfg: Settings, c: Cluster, order: seq<Name>, n: Name)
    requires cfg.mode == SharedRwo && Complete(order, c) && n in c.pods && ShapedPods(cfg, c)
    ensures var node := FirstMountNode(c, SharedPvcName, ListedPods(c, cfg.app, cfg.managedBy, order));
            exists m :: m in c.pods && node == c.pods[m].node
  {
    var items := ListedPods(c, cfg.app, cfg.managedBy, order);
    ListedPodsMembers(c, cfg.app, cfg.managedBy, order);
    assert n in items;
    assert items[0] in items;
  }

  lemma {:induction false} SearchFindsNothing(cfg: Settings, c: Cluster, order: seq<Name>)
    requires c.pods == map[]
    ensures ListedPods(c, cfg.app, cfg.managedBy, order) == []
  {
    if order == [] {
    } else {
      SearchFindsNothing(cfg, c, order[..|order| - 1]);
    }
  }

  /** The remembered node once a new pod is prepared is the home of all other pods, if there are any;
      unless the only other pod is unscheduled, in which case it is no node at all. */
  lemma ChosenNode(cfg: Settings, w: World, t: TerminalPod, listing: seq<Name>, now: int, home: Option<string>)
    requires cfg.mode == SharedRwo && ShapedPods(cfg, w.cluster) && PinnedAt(w, home)
    requires Complete(listing, w.cluster)
    ensures var node := PrepareStorage(cfg, w, t, listing, now, NO_FAULTS).world.sharedNode;
            && (w.cluster.pods != map[] ==> node == home)
            && (Truthy(node) ==> node == home)
            && (w.cluster.pods == map[] && !Truthy(w.sharedNode) ==> node.None?)
  {
    var c := EnsureSharedPvc(cfg, w.cluster, now, NO_FAULTS).value;
    assert c.pods == w.cluster.pods;
    if w.cluster.pods != map[] {
      var n :| n in w.cluster.pods;
      assert forall m :: m in w.cluster.pods ==> w.cluster.pods[m].node == home;
      SearchFindsANode(cfg, c, listing, n);
    } else {
      SearchFindsNothing(cfg, c, listing);
    }
  }

  lemma StartRemembersNode(cfg: Settings, w: World, t: TerminalPod, listing: seq<Name>, now: int)
    ensures var node := PrepareStorage(cfg, w, t, listing, now, NO_FAULTS).world.sharedNode;
            var a := StartCreation(cfg, w, t, listing, now, NO_FAULTS);
            && a.world.sharedNode == node
            && (cfg.mode == SharedRwo && a.Done? && CreatesOrConflicts(cfg, w, t, a) ==>
                  a.world.cluster.pods[TerminalName(t.hash)].node == if Truthy(node) then node else None)
  {
    hide PrepareStorage;
  }

  /** Adding the new user's pod at the chosen node keeps the pins, with that node as the home. */
  lemma NewPodStaysPinned(w: World, v: World, h: Hash, p: Pod, node: Option<string>, home: Option<string>)
    requires PinnedAt(w, home) && h !in w.pods && forall n :: !Unscheduled(w.cluster, n)
    requires w.cluster.pods != map[] ==> node == home
    requires node.Some? ==> Truthy(node)
    requires v.cluster.pods == w.cluster.pods[TerminalName(h) := p] && p.node == node && p.phase == Pending
    requires v.pods == w.pods && v.creating.Some? && v.creating.value.seen.None?
    requires Truthy(v.sharedNode) ==> v.sharedNode == node
    ensures PinnedAt(v, node)
  {
    forall n | n in w.cluster.pods ensures w.cluster.pods[n].node == home && Truthy(home) {
      assert !Unscheduled(w.cluster, n);
    }
    forall g | g in v.pods ensures !Unscheduled(v.cluster, TerminalName(g)) {
      assert !Unscheduled(w.cluster, TerminalName(g));
    }
  }

  /** A creation that starts while every pod is scheduled, or that fails, keeps the pins. */
  lemma StartStaysPinned(
    cfg: Settings, w: World, userId: string, h: Hash, key: ApiKey, listing: seq<Name>, now: int, home: Option<string>)
    returns (after: Option<string>)
    requires cfg.mode == SharedRwo && Loose(cfg, w) && PinnedAt(w, home) && w.creating.None? && h !in w.pods
    requires Complete(listing, w.cluster)
    requires var a := StartCreation(cfg, w, Create(cfg, userId, h, key, now), listing, now, NO_FAULTS);
             a.Raised? || forall n :: !Unscheduled(w.cluster, n)
    ensures PinnedAt(StartCreation(cfg, w, Create(cfg, userId, h, key, now), listing, now, NO_FAULTS).world, after)
  {
    hide StartCreation, PrepareStorage, PinnedAt, Loose, ShapedFor, BuildPodForUser, Complete;
    var t := Create(cfg, userId, h, key, now);
    LooseShapes(cfg, w);
    ChosenNode(cfg, w, t, listing, now, home);
    LooseCreation(cfg, w, userId, h, key, listing, now);
    StartCreationShape(cfg, w, t, listing, now, NO_FAULTS);
    StartRemembersNode(cfg, w, t, listing, now);
    var node := PrepareStorage(cfg, w, t, listing, now, NO_FAULTS).world.sharedNode;
    var b := StartCreation(cfg, w, t, listing, now, NO_FAULTS);
    if b.Done? {
      after := if Truthy(node) then node else None;
      HomeIsTruthy(w, home);
      NewPodStaysPinned(w, b.world, h, b.world.cluster.pods[TerminalName(h)], after, home);
    } else {
      after := home;
      FewerPodsStayPinned(w, b.world, home);
    }
  }

  lemma LooseShapes(cfg: Settings, w: World)
    requires Loose(cfg, w)
    ensures ShapedPods(cfg, w.cluster)
  {
    hide ShapedFor;
  }

  lemma HomeIsTruthy(w: World, home: Option<string>)
    requires PinnedAt(w, home) && forall n :: !Unscheduled(w.cluster, n)
    ensures w.cluster.pods != map[] ==> Truthy(home)
  {
    if w.cluster.pods != map[] {
      var n :| n in w.cluster.pods;
      assert !Unscheduled(w.cluster, n);
    }
  }

  /** A creation starts while some pod has no node. */
  ghost predicate Exposed(cfg: Settings, w: World, e: Event) {
    && e.Ask? && e.request.hash !in w.pods
    && GetOrCreate(cfg, w, e.request, e.faults).Done?
    && exists n :: Unscheduled(w.cluster, n)
  }

  lemma TouchStaysPinned(cfg: Settings, w: World, h: Hash, now: int, home: Option<string>)
    requires PinnedAt(w, home) && h in w.pods
    ensures PinnedAt(Touched(cfg, w, h, now, NO_FAULTS), home)
  {
    hide PinnedAt;
    RevealPin(w, home);
    FewerPodsStayPinned(w, Touched(cfg, w, h, now, NO_FAULTS), home);
  }

  lemma RevealPin(w: World, home: Option<string>)
    requires PinnedAt(w, home)
    ensures Truthy(w.sharedNode) ==> w.sharedNode == home
  {
  }

  lemma MakeRoomStaysPinned(cfg: Settings, w: World, order: seq<Hash>, now: int, home: Option<string>)
    requires PinnedAt(w, home) && Enumerates(order, w.pods.Keys)
    ensures PinnedAt(MakeRoom(cfg, w, order, now, NO_FAULTS), home)
  {
    hide PinnedAt, MakeRoom, Enumerates;
    RevealPin(w, home);
    MakeRoomShape(cfg, w, order, now, NO_FAULTS);
    MakeRoomShrinksPods(cfg, w, order, now);
    FewerPodsStayPinned(w, MakeRoom(cfg, w, order, now, NO_FAULTS), home);
  }

  lemma AskStaysPinned(cfg: Settings, w: World, r: Request, home: Option<string>) returns (after: Option<string>)
    requires cfg.mode == SharedRwo && Loose(cfg, w) && PinnedAt(w, home)
    requires w.creating.None? && Enumerates(r.order, w.pods.Keys) && IsHash(r.hash) && Complete(r.listing, w.cluster)
    requires !Exposed(cfg, w, Ask(r, NO_FAULTS))
    ensures PinnedAt(GetOrCreate(cfg, w, r, NO_FAULTS).world, after)
  {
    hide PinnedAt, Loose, GetOrCreate, StartCreation, MakeRoom, Enumerates;
    LooseIsTracked(cfg, w);
    AskUnfolds(cfg, w, r, NO_FAULTS);
    if r.hash in w.pods {
      after := home;
      TouchStaysPinned(cfg, w, r.hash, r.now, home);
    } else {
      var v := MakeRoom(cfg, w, r.order, r.now, NO_FAULTS);
      MakeRoomShape(cfg, w, r.order, r.now, NO_FAULTS);
      MakeRoomStaysLoose(cfg, w, r.order, r.now, "");
      MakeRoomShrinksPods(cfg, w, r.order, r.now);
      MakeRoomStaysPinned(cfg, w, r.order, r.now, home);
      forall n | forall m :: !Unscheduled(w.cluster, m) ensures !Unscheduled(v.cluster, n) {
        assert !Unscheduled(w.cluster, n);
      }
      after := StartStaysPinned(cfg, v, r.userId, r.hash, r.key, r.listing, r.now, home);
    }
  }

  // ---------- The other steps ----------

  lemma AnswerStaysPinned(cfg: Settings, w: World, ready: bool, ip: Option<string>, home: Option<string>)
    requires Loose(cfg, w) && PinnedAt(w, home) && Clean(cfg, w, Answer(ready, ip, NO_FAULTS))
    ensures PinnedAt(FinishCreation(w, ready, ip, NO_FAULTS), home)
  {
    hide PodsAt;
    var v := FinishCreation(w, ready, ip, NO_FAULTS);
    if ready && Truthy(ip) {
      assert v.cluster == w.cluster;
    } else {
      FewerPodsStayPinned(w, v, home);
    }
  }

  lemma PollStaysPinned(cfg: Settings, w: World, home: Option<string>)
    requires Loose(cfg, w) && PinnedAt(w, home) && w.creating.Some?
    ensures PinnedAt(Polled(w), home)
  {
    var h := w.creating.value.terminal.hash;
    assert Live(w, h) && w.creating.value.terminal == TerminalOf(w, h);
    assert w.creating.value.terminal.podName == TerminalName(h);
  }

  lemma EnvironmentStaysPinned(w: World, after: Cluster, home: Option<string>) returns (newHome: Option<string>)
    requires PinnedAt(w, home) && EnvironmentMay(w.cluster, after)
    ensures PinnedAt(w.(cluster := after), newHome)
  {
    newHome := home;
    if n :| Unscheduled(w.cluster, n) && n in after.pods {
      newHome := after.pods[n].node;
    }
    forall n | n in after.pods
      ensures if after.pods[n].node.Some? then after.pods[n].node == newHome && Truthy(newHome) else newHome.None?
      ensures Unscheduled(after, n) ==> Unscheduled(w.cluster, n)
      ensures after.pods[n].phase == Phase.Running ==> after.pods[n].node.Some?
    {
      assert PodMayBecome(w.cluster.pods[n], after.pods[n]);
    }
  }

  lemma RestartedPodsRun(cfg: Settings, w: World, boot: Boot)
    requires Loose(cfg, w) && BootFits(cfg, w.cluster, boot) && Complete(boot.listing, w.cluster)
    ensures var v := Restart(cfg, w, boot, NO_FAULTS);
            && OnlyPodsOf(w.cluster, v.cluster) && v.creating.None? && v.sharedNode.None?
            && forall n :: n in v.cluster.pods ==> v.cluster.pods[n].phase == Phase.Running
  {
    hide Restart, TerminalsNamed, Paired, LiveUsersHaveSecrets, Complete, Readopted;
    RestartEffect(cfg, w, boot);
  }

  lemma RestartStaysPinned(cfg: Settings, w: World, boot: Boot, home: Option<string>)
    requires Loose(cfg, w) && PinnedAt(w, home)
    requires BootFits(cfg, w.cluster, boot) && Complete(boot.listing, w.cluster)
    ensures PinnedAt(Restart(cfg, w, boot, NO_FAULTS), home)
  {
    hide Restart, Loose, Complete;
    RestartedPodsRun(cfg, w, boot);
    forall n ensures !Unscheduled(Restart(cfg, w, boot, NO_FAULTS).cluster, n) {}
  }

  lemma DropAllStaysPinned(cfg: Settings, w: World, hs: seq<Hash>, now: int, home: Option<string>)
    requires PinnedAt(w, home)
    ensures PinnedAt(DropAll(cfg, w, hs, now, NO_FAULTS), home)
  {
    hide PinnedAt, DropAll;
    RevealPin(w, home);
    DropAllShape(cfg, w, hs, now, NO_FAULTS);
    DropAllShrinksPods(cfg, w, hs, now);
    FewerPodsStayPinned(w, DropAll(cfg, w, hs, now, NO_FAULTS), home);
  }

  lemma SameStaysPinned(w: World, v: World, home: Option<string>)
    requires PinnedAt(w, home) && v.cluster.pods == w.cluster.pods && v.pods.Keys == w.pods.Keys
    requires v.sharedNode == w.sharedNode && (v.creating == w.creating || v.creating.None?)
    ensures PinnedAt(v, home)
  {
    FewerPodsStayPinned(w, v, home);
  }

  lemma PinnedStep(cfg: Settings, w: World, e: Event, home: Option<string>) returns (after: Option<string>)
    requires cfg.mode == SharedRwo && Loose(cfg, w) && PinnedAt(w, home) && Calm(cfg, w, e) && !Exposed(cfg, w, e)
    ensures PinnedAt(Next(cfg, w, e), after)
  {
    hide Loose, PinnedAt, GetOrCreate, FinishCreation, Restart, DropAll, EnvironmentMay, Exposed;
    after := home;
    match e
    case Ask(r, _) => after := AskStaysPinned(cfg, w, r, home);
    case Poll => PollStaysPinned(cfg, w, home);
    case Answer(ready, ip, _) => AnswerStaysPinned(cfg, w, ready, ip, home);
    case Abandon => SameStaysPinned(w, w.(creating := None), home);
    case IdleSweep(order, now, _) => DropAllStaysPinned(cfg, w, IdleAmong(cfg, w.pods, now, order), now, home);
    case HealthSweep(order, now, f) =>
      SameStaysPinned(w, RefreshAll(w, f), home);
      DropAllStaysPinned(cfg, RefreshAll(w, f), UnhealthyAmong(w, f, order), now, home);
    case PvcSweep(_, _, _) => SameStaysPinned(w, Next(cfg, w, e), home);
    case Environment(d) => after := EnvironmentStaysPinned(w, d, home);
    case CrashAndRestart(boot, _) => RestartStaysPinned(cfg, w, boot, home);
  }

  // ---------- Runs whose waits may be cut off ----------

  lemma EmptyIsPinned(w: World)
    requires Initial(w) && w.cluster.pods == map[]
    ensures PinnedAt(w, None)
  {
  }

  lemma {:induction false} StaysPinned(cfg: Settings, ws: seq<World>, es: seq<Event>, i: nat)
    returns (home: Option<string>)
    requires cfg.mode == SharedRwo && IsCalmRun(cfg, ws, es) && Loose(cfg, ws[0])
    requires ws[0].cluster.pods == map[] && Initial(ws[0]) && i < |ws|
    requires forall j :: 0 <= j < i ==> !Exposed(cfg, ws[j], es[j])
    ensures PinnedAt(ws[i], home)
    decreases i
  {
    hide Loose, Next, Enabled, Calm, PinnedAt, Exposed;
    if i == 0 {
      home := None;
      EmptyIsPinned(ws[0]);
    } else {
      CalmRunStaysLoose(cfg, ws, es, i - 1);
      home := StaysPinned(cfg, ws, es, i - 1);
      assert Calm(cfg, ws[i - 1], es[i - 1]) && ws[i - 1 + 1] == Next(cfg, ws[i - 1], es[i - 1]);
      home := PinnedStep(cfg, ws[i - 1], es[i - 1], home);
    }
  }

  /** As long as no creation starts while some pod has no node, all scheduled pods that mount the shared
      claim are on one node, even if waits are cut off. */
  lemma CoLocatedUnlessExposed(cfg: Settings, ws: seq<World>, es: seq<Event>, i: nat)
    requires cfg.mode == SharedRwo && IsCalmRun(cfg, ws, es) && Loose(cfg, ws[0])
    requires ws[0].cluster.pods == map[] && Initial(ws[0]) && i < |ws|
    requires forall j :: 0 <= j < i ==> !Exposed(cfg, ws[j], es[j])
    ensures OneNode(ws[i].cluster) && TrackedAreScheduled(ws[i])
    ensures forall n :: Unscheduled(ws[i].cluster, n) ==> ws[i].cluster.pods.Keys == {n}
  {
    hide IsCalmRun, Loose;
    var home := StaysPinned(cfg, ws, es, i);
    PinnedIsOneNode(ws[i], home);
  }

  /** What an exposed creation leads to: two pods without a node that mount the shared claim. */
  lemma ExposedPodsAreUnpinned(cfg: Settings, w: World, e: Event, home: Option<string>) returns (m: Name, n: Name)
    requires cfg.mode == SharedRwo && Loose(cfg, w) && PinnedAt(w, home) && Calm(cfg, w, e) && Exposed(cfg, w, e)
    ensures var c := Next(cfg, w, e).cluster;
            && m != n && Unscheduled(c, m) && Unscheduled(c, n)
            && c.pods[m].claim == Some(SharedPvcName) && c.pods[n].claim == Some(SharedPvcName)
            && c.pods[m].phase != Phase.Running && c.pods[n].phase != Phase.Running
  {
    hide Loose, GetOrCreate, StartCreation, MakeRoom, Enumerates, PrepareStorage, BuildPodForUser, Stranded, Complete;
    var r := e.request;
    m :| Unscheduled(w.cluster, m);
    n := TerminalName(r.hash);
    LooseIsTracked(cfg, w);
    LooseShapes(cfg, w);
    AskUnfolds(cfg, w, r, NO_FAULTS);
    var v := MakeRoom(cfg, w, r.order, r.now, NO_FAULTS);
    var t := Create(cfg, r.userId, r.hash, r.key, r.now);
    var a := StartCreation(cfg, v, t, r.listing, r.now, NO_FAULTS);
    MakeRoomShape(cfg, w, r.order, r.now, NO_FAULTS);
    MakeRoomStaysLoose(cfg, w, r.order, r.now, "");
    MakeRoomSparesOthers(cfg, w, r.order, r.now, m);
    MakeRoomShrinksPods(cfg, w, r.order, r.now);
    MakeRoomStaysPinned(cfg, w, r.order, r.now, home);
    LooseShapes(cfg, v);
    FewerPodsComplete(w.cluster, v.cluster, r.listing);
    ChosenNode(cfg, v, t, r.listing, r.now, home);
    LooseCreation(cfg, v, r.userId, r.hash, r.key, r.listing, r.now);
    StartRemembersNode(cfg, v, t, r.listing, r.now);
    SecretlessUserHasNoPod(cfg, v, r.hash);
    assert a.world.cluster.pods == v.cluster.pods[n := a.world.cluster.pods[n]];
  }

  lemma FewerPodsComplete(c: Cluster, d: Cluster, listing: seq<Name>)
    requires Complete(listing, c) && OnlyPodsOf(c, d)
    ensures Complete(listing, d)
  {
  }

  lemma SecretlessUserHasNoPod(cfg: Settings, w: World, h: Hash)
    requires Loose(cfg, w) && SecretName(h) !in w.cluster.secrets
    ensures TerminalName(h) !in w.cluster.pods
  {
    SecretlessUserHasNothing(cfg, w, h);
  }

  /** Making room removes only the pod of a tracked user. */
  lemma MakeRoomSparesOthers(cfg: Settings, w: World, order: seq<Hash>, now: int, m: Name)
    requires Loose(cfg, w) && Unscheduled(w.cluster, m) && TrackedAreScheduled(w)
    ensures Unscheduled(MakeRoom(cfg, w, order, now, NO_FAULTS).cluster, m)
  {
    hide Orderly, Paired, LiveUsersHaveSecrets;
    if |w.pods| >= cfg.maxPods && Oldest(w.pods, order).Some? {
      var h := Oldest(w.pods, order).value;
      assert Live(w, h);
      TearDownClean(cfg, w.cluster, w.pods[h], h, now);
    }
  }

  /** Schedules `m` and `n` on two different nodes. */
  function Scattered(c: Cluster, m: Name, n: Name): Cluster
    requires m in c.pods && n in c.pods
  {
    c.(pods := c.pods[m := c.pods[m].(node := Some("a"))][n := c.pods[n].(node := Some("b"))])
  }

  /** Once a creation has started while some pod had no node, the scheduler may scatter the pods: some
      environment step permitted in fault-free runs ends with two of them on different nodes. */
  lemma ExposureBreaksCoLocation(cfg: Settings, ws: seq<World>, es: seq<Event>, i: nat) returns (after: Cluster)
    requires cfg.mode == SharedRwo && IsCalmRun(cfg, ws, es) && Loose(cfg, ws[0])
    requires ws[0].cluster.pods == map[] && Initial(ws[0])
    requires i < |es| && Exposed(cfg, ws[i], es[i]) && forall j :: 0 <= j < i ==> !Exposed(cfg, ws[j], es[j])
    ensures Clean(cfg, ws[i + 1], Environment(after)) && !OneNode(after)
  {
    hide Loose, Exposed, Next, Enabled, PinnedAt, Calm;
    var home := StaysPinned(cfg, ws, es, i);
    CalmRunStaysLoose(cfg, ws, es, i);
    assert Calm(cfg, ws[i], es[i]) && ws[i + 1] == Next(cfg, ws[i], es[i]);
    var m, n := ExposedPodsAreUnpinned(cfg, ws[i], es[i], home);
    after := Scattered(ws[i + 1].cluster, m, n);
    RunningPodsHaveNodes(cfg, ws, es, i + 1);
    ScatteringIsPermitted(cfg, ws[i + 1], m, n);
  }

  ghost predicate RunningHaveNodes(c: Cluster) {
    forall n :: n in c.pods && c.pods[n].phase == Phase.Running ==> Truthy(c.pods[n].node)
  }

  lemma ScatteringIsPermitted(cfg: Settings, w: World, m: Name, n: Name)
    requires m != n && Unscheduled(w.cluster, m) && Unscheduled(w.cluster, n) && RunningHaveNodes(w.cluster)
    requires w.cluster.pods[m].claim == Some(SharedPvcName) && w.cluster.pods[n].claim == Some(SharedPvcName)
    ensures var after := Scattered(w.cluster, m, n);
            Clean(cfg, w, Environment(after)) && !OneNode(after)
  {
    var after := Scattered(w.cluster, m, n);
    assert MountsSharedOn(after.pods[m]) && MountsSharedOn(after.pods[n]) && after.pods[m].node != after.pods[n].node;
    forall k | k in after.pods ensures k in w.cluster.pods && PodMayBecome(w.cluster.pods[k], after.pods[k]) {}
  }

  lemma {:induction false} RunningPodsHaveNodes(cfg: Settings, ws: seq<World>, es: seq<Event>, i: nat)
    requires IsCalmRun(cfg, ws, es) && Loose(cfg, ws[0]) && ws[0].cluster.pods == map[] && i < |ws|
    ensures RunningHaveNodes(ws[i].cluster)
    decreases i
  {
    hide Loose, Next, Enabled, Calm, RunningHaveNodes;
    if i == 0 {
      assert RunningHaveNodes(ws[0].cluster) by { NoPodsRun(ws[0].cluster); }
    } else {
      RunningPodsHaveNodes(cfg, ws, es, i - 1);
      CalmRunStaysLoose(cfg, ws, es, i - 1);
      assert Calm(cfg, ws[i - 1], es[i - 1]) && ws[i - 1 + 1] == Next(cfg, ws[i - 1], es[i - 1]);
      RunningStep(cfg, ws[i - 1], es[i - 1]);
    }
  }

  lemma NoPodsRun(c: Cluster)
    requires c.pods == map[]
    ensures RunningHaveNodes(c)
  {
  }

  lemma OldPodsRun(c: Cluster, d: Cluster)
    requires RunningHaveNodes(c) && OnlyPodsOf(c, d)
    ensures RunningHaveNodes(d)
  {
  }

  lemma RunningStep(cfg: Settings, w: World, e: Event)
    requires Loose(cfg, w) && Calm(cfg, w, e) && RunningHaveNodes(w.cluster)
    ensures RunningHaveNodes(Next(cfg, w, e).cluster)
  {
    hide Loose, GetOrCreate, Restart, DropAll, RunningHaveNodes;
    match e
    case Ask(r, _) => AskPodsRun(cfg, w, r);
    case Poll =>
    case Answer(_, _, _) => OldPodsRun(w.cluster, Next(cfg, w, e).cluster);
    case Abandon =>
    case IdleSweep(order, now, _) =>
      DropAllShrinksPods(cfg, w, IdleAmong(cfg, w.pods, now, order), now);
      OldPodsRun(w.cluster, Next(cfg, w, e).cluster);
    case HealthSweep(order, now, f) =>
      RefreshKeepsCluster(w, f);
      DropAllShrinksPods(cfg, RefreshAll(w, f), UnhealthyAmong(w, f, order), now);
      OldPodsRun(w.cluster, Next(cfg, w, e).cluster);
    case PvcSweep(_, _, _) => OldPodsRun(w.cluster, Next(cfg, w, e).cluster);
    case Environment(after) => EnvironmentPodsRun(w.cluster, after);
    case CrashAndRestart(_, _) =>
      RestartKeepsOldPods(cfg, w, e);
      OldPodsRun(w.cluster, Next(cfg, w, e).cluster);
  }

  lemma EnvironmentPodsRun(c: Cluster, d: Cluster)
    requires EnvironmentMay(c, d)
    ensures RunningHaveNodes(d)
  {
    forall n | n in d.pods && d.pods[n].phase == Phase.Running ensures Truthy(d.pods[n].node) {
      assert PodMayBecome(c.pods[n], d.pods[n]);
    }
  }

  lemma AskPodsRun(cfg: Settings, w: World, r: Request)
    requires Loose(cfg, w) && w.creating.None? && Enumerates(r.order, w.pods.Keys) && IsHash(r.hash)
    requires RunningHaveNodes(w.cluster)
    ensures RunningHaveNodes(GetOrCreate(cfg, w, r, NO_FAULTS).world.cluster)
  {
    hide Loose, GetOrCreate, MakeRoom, StartCreation, Enumerates, BuildPodForUser, ShapedFor;
    LooseIsTracked(cfg, w);
    AskUnfolds(cfg, w, r, NO_FAULTS);
    if r.hash !in w.pods {
      MakeRoomShrinksPods(cfg, w, r.order, r.now);
      MakeRoomStaysLoose(cfg, w, r.order, r.now, "");
      LooseCreation(cfg, MakeRoom(cfg, w, r.order, r.now, NO_FAULTS), r.userId, r.hash, r.key, r.listing, r.now);
    }
  }

  // ---------- Fault-free runs ----------

  ghost predicate IsStarting(w: World, n: Name) {
    w.creating.Some? && n == TerminalName(w.creating.value.terminal.hash)
  }

  lemma OnlyStartingIsUnscheduled(cfg: Settings, w: World, home: Option<string>)
    requires Consistent(cfg, w) && PinnedAt(w, home)
    ensures forall n :: Unscheduled(w.cluster, n) ==> IsStarting(w, n) && w.cluster.pods.Keys == {n}
  {
    hide TerminalsNamed, PairsComplete;
    forall n | Unscheduled(w.cluster, n) ensures IsStarting(w, n) && w.cluster.pods.Keys == {n} {
      assert n == TerminalName(n.hash) && Live(w, n.hash);
    }
  }

  /** No creation of a fault-free run is exposed. */
  lemma {:induction false} NeverExposed(cfg: Settings, ws: seq<World>, es: seq<Event>, i: nat)
    requires cfg.mode == SharedRwo && IsCleanRun(cfg, ws, es) && Consistent(cfg, ws[0])
    requires ws[0].cluster.pods == map[] && Initial(ws[0]) && i <= |es|
    ensures forall j :: 0 <= j < i ==> !Exposed(cfg, ws[j], es[j])
    decreases i
  {
    hide Consistent, Loose, Next, PinnedAt, GetOrCreate;
    if i == 0 {
    } else {
      NeverExposed(cfg, ws, es, i - 1);
      CleanIsCalm(cfg, ws, es);
      ConsistentIsLoose(cfg, ws[0]);
      ClusterAgreement(cfg, ws, es);
      var home := StaysPinned(cfg, ws, es, i - 1);
      OnlyStartingIsUnscheduled(cfg, ws[i - 1], home);
      assert Clean(cfg, ws[i - 1], es[i - 1]);
    }
  }

  /** In every state of every fault-free run in shared-RWO mode, restarts and killed pods included, all
      scheduled pods that mount the shared claim are on one node. Only the pod that is starting may have
      no node, and only while it is the only pod; every pod of a tracked user is scheduled. */
  lemma SharedPodsAreCoLocated(cfg: Settings, ws: seq<World>, es: seq<Event>, i: nat)
    requires cfg.mode == SharedRwo && IsCleanRun(cfg, ws, es)
    requires Consistent(cfg, ws[0]) && ws[0].cluster.pods == map[] && Initial(ws[0]) && i < |ws|
    ensures OneNode(ws[i].cluster) && TrackedAreScheduled(ws[i])
    ensures forall n :: Unscheduled(ws[i].cluster, n) ==> IsStarting(ws[i], n) && ws[i].cluster.pods.Keys == {n}
  {
    hide Enabled, Next, Consistent, Loose, Exposed, OneNode, PinnedAt, TrackedAreScheduled, Unscheduled;
    CleanIsCalm(cfg, ws, es);
    ConsistentIsLoose(cfg, ws[0]);
    ClusterAgreement(cfg, ws, es);
    NeverExposed(cfg, ws, es, i);
    CoLocatedUnlessExposed(cfg, ws, es, i);
    var home := StaysPinned(cfg, ws, es, i);
    OnlyStartingIsUnscheduled(cfg, ws[i], home);
  }
}
