/** What a creation leaves behind when its wait is cut off by an exception or a cancellation. Runs here
    are fault-free except that waits may be cut off at any time. */
module Interruptions {
  import opened Basics
  import opened Names
  import opened Base64
  import opened Terminals
  import opened ClusterModel
  import opened PodBuilder
  import opened Storage
  import opened Lifecycle
  import opened Runs
  import opened Tracking
  import opened Agreement
  import opened Recovery

  ghost predicate Calm(cfg: Settings, w: World, e: Event) {
    Clean(cfg, w, e) || (Enabled(cfg, w, e) && e.Abandon?)
  }

  ghost predicate IsCalmRun(cfg: Settings, ws: seq<World>, es: seq<Event>) {
    IsRun(cfg, ws, es) && forall i :: 0 <= i < |es| ==> Calm(cfg, ws[i], es[i])
  }

  lemma CleanIsCalm(cfg: Settings, ws: seq<World>, es: seq<Event>)
    requires IsCleanRun(cfg, ws, es)
    ensures IsCalmRun(cfg, ws, es)
  {
  }

  /** The user is unknown to the manager, but a secret of the user is still there. */
  ghost predicate Stranded(w: World, h: Hash) {
    !Live(w, h) && SecretName(h) in w.cluster.secrets
  }

  // ---------- What remains of agreement ----------

  /** Services and secrets come in pairs. */
  ghost predicate Paired(c: Cluster) {
    && (forall n :: n in c.services ==> n.TerminalName? && SecretName(n.hash) in c.secrets)
    && (forall n :: n in c.secrets ==> n.SecretName? && TerminalName(n.hash) in c.services)
  }

  ghost predicate LiveUsersHaveSecrets(w: World) {
    forall h :: Live(w, h) ==> SecretName(h) in w.cluster.secrets
  }

  /** Names, shapes and pairs are as in a consistent state, but pods and pairs need not have a live user. */
  ghost predicate Loose(cfg: Settings, w: World) {
    TerminalsNamed(cfg, w) && Orderly(cfg, w.cluster) && Paired(w.cluster) && LiveUsersHaveSecrets(w)
  }

  lemma ConsistentIsLoose(cfg: Settings, w: World)
    requires Consistent(cfg, w)
    ensures Loose(cfg, w)
  {
    ConsistentIsOrderly(cfg, w);
  }

  // ---------- One user less ----------

  lemma WithoutKeepsTerminals(cfg: Settings, w: World, v: World, h: Hash)
    requires TerminalsNamed(cfg, w) && Tracked(v) && Without(w, v, h)
    ensures TerminalsNamed(cfg, v)
  {
    hide NamedFor;
  }

  lemma WithoutStaysOrderly(cfg: Settings, w: World, v: World, h: Hash)
    requires Orderly(cfg, w.cluster) && Without(w, v, h)
    ensures Orderly(cfg, v.cluster)
  {
    hide ShapedFor, DecodeKey, IsHash, Live;
  }

  lemma WithoutStaysPaired(w: World, v: World, h: Hash)
    requires Paired(w.cluster) && Without(w, v, h)
    ensures Paired(v.cluster)
  {
    hide Live;
  }

  lemma WithoutKeepsObjects(cfg: Settings, w: World, v: World, h: Hash)
    requires Orderly(cfg, w.cluster) && Paired(w.cluster) && LiveUsersHaveSecrets(w) && Without(w, v, h)
    ensures Orderly(cfg, v.cluster) && Paired(v.cluster) && LiveUsersHaveSecrets(v)
  {
    hide Orderly, Paired;
    WithoutStaysOrderly(cfg, w, v, h);
    WithoutStaysPaired(w, v, h);
  }

  lemma WithoutStrandsNobody(w: World, v: World, h: Hash, g: Hash)
    requires Without(w, v, h)
    ensures Stranded(v, g) <==> Stranded(w, g)
  {
  }

  lemma DropStaysLoose(cfg: Settings, w: World, h: Hash, now: int, g: Hash)
    requires Loose(cfg, w) && h in w.pods
    ensures Loose(cfg, Drop(cfg, w, h, now, NO_FAULTS))
    ensures Stranded(Drop(cfg, w, h, now, NO_FAULTS), g) <==> Stranded(w, g)
  {
    hide TerminalsNamed, Orderly, Paired, LiveUsersHaveSecrets, Without, Drop, Stranded;
    var v := Drop(cfg, w, h, now, NO_FAULTS);
    DropIsWithout(cfg, w, h, now);
    WithoutKeepsTerminals(cfg, w, v, h);
    WithoutKeepsObjects(cfg, w, v, h);
    WithoutStrandsNobody(w, v, h, g);
  }

  lemma {:induction false} DropAllStaysLoose(cfg: Settings, w: World, hs: seq<Hash>, now: int, g: Hash)
    requires Loose(cfg, w)
    ensures Loose(cfg, DropAll(cfg, w, hs, now, NO_FAULTS))
    ensures Stranded(DropAll(cfg, w, hs, now, NO_FAULTS), g) <==> Stranded(w, g)
  {
    hide Loose, Stranded;
    if hs == [] {
    } else {
      DropAllStaysLoose(cfg, w, hs[..|hs| - 1], now, g);
      var v := DropAll(cfg, w, hs[..|hs| - 1], now, NO_FAULTS);
      if hs[|hs| - 1] in v.pods {
        DropStaysLoose(cfg, v, hs[|hs| - 1], now, g);
      }
    }
  }

  lemma MakeRoomStaysLoose(cfg: Settings, w: World, order: seq<Hash>, now: int, g: Hash)
    requires Loose(cfg, w)
    ensures Loose(cfg, MakeRoom(cfg, w, order, now, NO_FAULTS))
    ensures Stranded(MakeRoom(cfg, w, order, now, NO_FAULTS), g) <==> Stranded(w, g)
  {
    hide Loose, Stranded, Drop;
    if |w.pods| >= cfg.maxPods && Oldest(w.pods, order).Some? {
      DropStaysLoose(cfg, w, Oldest(w.pods, order).value, now, g);
    }
  }

  // ---------- The same users and objects ----------

  /** `u` is `t` up to activity, address and state. */
  predicate SameButActivity(t: TerminalPod, u: TerminalPod) {
    u == t.(lastActiveAt := u.lastActiveAt, podIp := u.podIp, state := u.state)
  }

  /** The same users are live, their terminals differ in activity only, and no object but pods and
      claims has changed. */
  ghost predicate SameUsers(w: World, v: World) {
    && (forall h :: Live(v, h) <==> Live(w, h))
    && (forall h :: Live(v, h) && Live(w, h) ==> SameButActivity(TerminalOf(w, h), TerminalOf(v, h)))
    && v.cluster.services == w.cluster.services && v.cluster.secrets == w.cluster.secrets
  }

  lemma SameUsersStayLoose(cfg: Settings, w: World, v: World, g: Hash)
    requires Loose(cfg, w) && Tracked(v) && SameUsers(w, v) && Orderly(cfg, v.cluster)
    ensures Loose(cfg, v)
    ensures Stranded(v, g) <==> Stranded(w, g)
  {
    hide Orderly, Tracked;
  }

  lemma OrderlyByPods(cfg: Settings, c: Cluster, d: Cluster)
    requires Orderly(cfg, c) && d.secrets == c.secrets
    requires forall n :: n in d.pods ==> n in c.pods && (d.pods[n] == c.pods[n] || PodMayBecome(c.pods[n], d.pods[n]))
    ensures Orderly(cfg, d)
  {
  }

  // ---------- Creations ----------

  lemma SecretlessUserHasNothing(cfg: Settings, w: World, h: Hash)
    requires Orderly(cfg, w.cluster) && Paired(w.cluster)
    ensures NothingWithoutSecret(w.cluster, h)
  {
    assert TerminalName(h).hash == h;
  }

  lemma WithStaysOrderly(cfg: Settings, w: World, v: World, t: TerminalPod, p: Pod)
    requires Orderly(cfg, w.cluster) && With(cfg, w, v, t, p) && ShapedFor(cfg, t.hash, p) && IsHash(t.hash)
    ensures Orderly(cfg, v.cluster)
  {
    KeyRoundTrip(t.apiKey);
    hide ShapedFor, DecodeKey, EncodeKey, IsHash;
  }

  lemma WithStaysPaired(cfg: Settings, w: World, v: World, t: TerminalPod, p: Pod)
    requires Paired(w.cluster) && With(cfg, w, v, t, p)
    ensures Paired(v.cluster)
  {
  }

  lemma WithHasSecrets(cfg: Settings, w: World, v: World, t: TerminalPod, p: Pod, g: Hash)
    requires LiveUsersHaveSecrets(w) && With(cfg, w, v, t, p)
    requires t.hash !in w.pods && SecretName(t.hash) !in w.cluster.secrets
    ensures LiveUsersHaveSecrets(v)
    ensures Stranded(v, g) <==> Stranded(w, g)
  {
    OneUserMore(cfg, w, v, t, p);
  }

  /** In a loose state a creation fails exactly if its user is stranded, and strands nobody. */
  lemma StartStaysLoose(
    cfg: Settings, w: World, userId: string, h: Hash, key: ApiKey, listing: seq<Name>, now: int, g: Hash)
    requires Loose(cfg, w) && w.creating.None? && h !in w.pods && IsHash(h)
    ensures var a := StartCreation(cfg, w, Create(cfg, userId, h, key, now), listing, now, NO_FAULTS);
            && Loose(cfg, a.world) && (a.Raised? <==> Stranded(w, h))
            && (Stranded(a.world, g) <==> Stranded(w, g))
  {
    hide StartCreation, TerminalsNamed, Orderly, Paired, LiveUsersHaveSecrets, ShapedFor, BuildPodForUser, BuildSecret;
    var t := Create(cfg, userId, h, key, now);
    var a := StartCreation(cfg, w, t, listing, now, NO_FAULTS);
    SecretlessUserHasNothing(cfg, w, h);
    StartCreationCore(cfg, w, userId, h, key, listing, now);
    StartCreationShape(cfg, w, t, listing, now, NO_FAULTS);
    if a.Raised? {
      RaisedStaysLoose(cfg, w, a.world, g);
    } else {
      var p := a.world.cluster.pods[TerminalName(h)];
      WithKeepsTerminals(cfg, w, a.world, t, p);
      WithStaysOrderly(cfg, w, a.world, t, p);
      WithStaysPaired(cfg, w, a.world, t, p);
      WithHasSecrets(cfg, w, a.world, t, p, g);
    }
  }

  lemma RaisedStaysLoose(cfg: Settings, w: World, v: World, g: Hash)
    requires Loose(cfg, w) && v.pods == w.pods && v.creating == w.creating
    requires SameObjects(w.cluster, v.cluster)
    ensures Loose(cfg, v) && (Stranded(v, g) <==> Stranded(w, g))
  {
    forall h ensures Live(v, h) <==> Live(w, h) {}
    OrderlyByPods(cfg, w.cluster, v.cluster);
    SameUsersStayLoose(cfg, w, v, g);
  }

  lemma TouchStaysLoose(cfg: Settings, w: World, h: Hash, now: int, g: Hash)
    requires Loose(cfg, w) && h in w.pods
    ensures Loose(cfg, Touched(cfg, w, h, now, NO_FAULTS))
    ensures Stranded(Touched(cfg, w, h, now, NO_FAULTS), g) <==> Stranded(w, g)
  {
    var v := Touched(cfg, w, h, now, NO_FAULTS);
    assert v.cluster.pods == w.cluster.pods && v.cluster.secrets == w.cluster.secrets;
    OrderlyByPods(cfg, w.cluster, v.cluster);
    hide Orderly;
    forall k ensures Live(v, k) <==> Live(w, k) {}
    SameUsersStayLoose(cfg, w, v, g);
  }

  lemma LooseIsTracked(cfg: Settings, w: World)
    requires Loose(cfg, w)
    ensures Tracked(w)
  {
  }

  lemma AskStaysLoose(cfg: Settings, w: World, r: Request, g: Hash)
    requires Loose(cfg, w) && w.creating.None? && Enumerates(r.order, w.pods.Keys) && IsHash(r.hash)
    ensures var a := GetOrCreate(cfg, w, r, NO_FAULTS);
            && Loose(cfg, a.world) && (a.Raised? <==> Stranded(w, r.hash))
            && (Stranded(a.world, g) <==> Stranded(w, g))
  {
    hide Loose, Stranded, GetOrCreate, MakeRoom, StartCreation, Touched, Enumerates;
    LooseIsTracked(cfg, w);
    AskUnfolds(cfg, w, r, NO_FAULTS);
    if r.hash in w.pods {
      TouchStaysLoose(cfg, w, r.hash, r.now, g);
      TrackedIsNotStranded(w, r.hash);
    } else {
      var v := MakeRoom(cfg, w, r.order, r.now, NO_FAULTS);
      MakeRoomShape(cfg, w, r.order, r.now, NO_FAULTS);
      MakeRoomStaysLoose(cfg, w, r.order, r.now, g);
      MakeRoomStaysLoose(cfg, w, r.order, r.now, r.hash);
      StartStaysLoose(cfg, v, r.userId, r.hash, r.key, r.listing, r.now, g);
    }
  }

  lemma TrackedIsNotStranded(w: World, h: Hash)
    requires h in w.pods
    ensures !Stranded(w, h)
  {
  }

  lemma FinishStaysLoose(cfg: Settings, w: World, ready: bool, ip: Option<string>, g: Hash)
    requires Loose(cfg, w) && w.creating.Some?
    ensures Loose(cfg, FinishCreation(w, ready, ip, NO_FAULTS))
    ensures Stranded(FinishCreation(w, ready, ip, NO_FAULTS), g) <==> Stranded(w, g)
  {
    hide Orderly, Paired, LiveUsersHaveSecrets, Stranded;
    var v := FinishCreation(w, ready, ip, NO_FAULTS);
    var t := w.creating.value.terminal;
    assert Live(w, t.hash) && TerminalOf(w, t.hash) == t;
    if ready && Truthy(ip) {
      assert v.cluster == w.cluster;
      forall k ensures Live(v, k) <==> Live(w, k) {}
      SameUsersStayLoose(cfg, w, v, g);
    } else {
      forall k ensures Live(v, k) <==> Live(w, k) && k != t.hash {}
      assert Without(w, v, t.hash);
      WithoutKeepsTerminals(cfg, w, v, t.hash);
      WithoutKeepsObjects(cfg, w, v, t.hash);
      WithoutStrandsNobody(w, v, t.hash, g);
    }
  }

  /** A wait that is cut off strands its user, and nobody else. */
  lemma AbandonStrands(cfg: Settings, w: World, g: Hash)
    requires Loose(cfg, w) && w.creating.Some?
    ensures Loose(cfg, w.(creating := None))
    ensures Stranded(w.(creating := None), g) <==> Stranded(w, g) || g == w.creating.value.terminal.hash
  {
    var v := w.(creating := None);
    hide Orderly, Paired;
    assert Live(w, w.creating.value.terminal.hash);
    forall k ensures Live(v, k) <==> Live(w, k) && k != w.creating.value.terminal.hash {}
    forall k | Live(v, k) ensures TerminalOf(v, k) == TerminalOf(w, k) {}
  }

  // ---------- Sweeps, the environment and restarts ----------

  lemma RefreshStaysLoose(cfg: Settings, w: World, g: Hash)
    requires Loose(cfg, w)
    ensures Loose(cfg, RefreshAll(w, NO_FAULTS))
    ensures Stranded(RefreshAll(w, NO_FAULTS), g) <==> Stranded(w, g)
  {
    hide Orderly;
    var v := RefreshAll(w, NO_FAULTS);
    forall k ensures Live(v, k) <==> Live(w, k) {}
    SameUsersStayLoose(cfg, w, v, g);
  }

  lemma PollStaysLoose(cfg: Settings, w: World, g: Hash)
    requires Loose(cfg, w) && w.creating.Some?
    ensures Loose(cfg, Polled(w)) && (Stranded(Polled(w), g) <==> Stranded(w, g))
  {
    hide Orderly;
    forall k ensures Live(Polled(w), k) <==> Live(w, k) {}
    SameUsersStayLoose(cfg, w, Polled(w), g);
  }

  lemma EnvironmentStaysOrderly(cfg: Settings, c: Cluster, d: Cluster)
    requires Orderly(cfg, c) && EnvironmentMay(c, d)
    ensures Orderly(cfg, d) && d.services == c.services && d.secrets == c.secrets
  {
    hide Orderly, PodMayBecome;
    OrderlyByPods(cfg, c, d);
  }

  lemma EnvironmentStaysLoose(cfg: Settings, w: World, after: Cluster, g: Hash)
    requires Loose(cfg, w) && EnvironmentMay(w.cluster, after)
    ensures Loose(cfg, w.(cluster := after)) && (Stranded(w.(cluster := after), g) <==> Stranded(w, g))
  {
    var v := w.(cluster := after);
    hide Orderly, EnvironmentMay;
    EnvironmentStaysOrderly(cfg, w.cluster, after);
    forall k ensures Live(v, k) <==> Live(w, k) {}
    SameUsersStayLoose(cfg, w, v, g);
  }

  lemma RestartStaysLoose(cfg: Settings, w: World, boot: Boot, g: Hash)
    requires Loose(cfg, w) && BootFits(cfg, w.cluster, boot) && Complete(boot.listing, w.cluster)
    ensures Loose(cfg, Restart(cfg, w, boot, NO_FAULTS))
    ensures Stranded(Restart(cfg, w, boot, NO_FAULTS), g)
            <==> SecretName(g) in w.cluster.secrets && TerminalName(g) !in w.cluster.pods
  {
    hide Restart, TerminalsNamed, LiveUsersHaveSecrets, Complete;
    RestartEffect(cfg, w, boot);
    var v := Restart(cfg, w, boot, NO_FAULTS);
    RestartedStaysOrderly(cfg, w.cluster, v);
    AdoptedAreHashed(cfg, w.cluster, v);
    RestartedTerminals(cfg, w.cluster, v);
    RestartedStaysPaired(cfg, w.cluster, v);
    RestartStrands(cfg, w.cluster, v, g);
  }

  lemma AdoptedAreHashed(cfg: Settings, c: Cluster, v: World)
    requires Orderly(cfg, c) && Restarted(cfg, c, v)
    ensures forall h :: h in v.pods ==> IsHash(h)
  {
    forall h | h in v.pods ensures IsHash(h) {
      assert IsUp(c, TerminalName(h));
    }
  }

  lemma RestartedStaysOrderly(cfg: Settings, c: Cluster, v: World)
    requires Orderly(cfg, c) && Restarted(cfg, c, v)
    ensures Orderly(cfg, v.cluster)
  {
    hide ShapedFor, Readopted;
    forall n | n in v.cluster.pods
      ensures n.TerminalName? && IsHash(n.hash)
      ensures ShapedFor(cfg, n.hash, v.cluster.pods[n]) && KeyReadable(v.cluster, n.hash)
    {
      assert IsUp(c, n);
      assert n == TerminalName(n.hash);
    }
  }

  lemma RestartedStaysPaired(cfg: Settings, c: Cluster, v: World)
    requires Orderly(cfg, c) && Paired(c) && Restarted(cfg, c, v)
    ensures Paired(v.cluster) && LiveUsersHaveSecrets(v)
  {
    hide Adopted;
    forall h | Live(v, h) ensures SecretName(h) in v.cluster.secrets {
      assert IsUp(c, TerminalName(h));
    }
    forall n | n in v.cluster.services ensures n.TerminalName? && SecretName(n.hash) in v.cluster.secrets {
      assert n == TerminalName(n.hash);
    }
  }

  lemma RestartStrands(cfg: Settings, c: Cluster, v: World, g: Hash)
    requires Orderly(cfg, c) && Restarted(cfg, c, v)
    ensures Stranded(v, g) <==> SecretName(g) in c.secrets && TerminalName(g) !in c.pods
  {
    hide Adopted;
    assert Live(v, g) <==> IsUp(c, TerminalName(g));
    assert SecretName(g).hash == g;
  }

  // ---------- Steps and runs ----------

  /** Who is stranded after one step. */
  ghost predicate StrandedNext(w: World, e: Event, h: Hash) {
    match e
    case Abandon => Stranded(w, h) || (w.creating.Some? && h == w.creating.value.terminal.hash)
    case CrashAndRestart(_, _) => SecretName(h) in w.cluster.secrets && TerminalName(h) !in w.cluster.pods
    case _ => Stranded(w, h)
  }

  lemma CalmStep(cfg: Settings, w: World, e: Event, h: Hash)
    requires Loose(cfg, w) && Calm(cfg, w, e)
    ensures Loose(cfg, Next(cfg, w, e))
    ensures Stranded(Next(cfg, w, e), h) <==> StrandedNext(w, e, h)
    ensures e.Ask? ==> (GetOrCreate(cfg, w, e.request, e.faults).Raised? <==> Stranded(w, e.request.hash))
  {
    hide Loose, Stranded, GetOrCreate, FinishCreation, Restart, DropAll, RefreshAll, Polled;
    hide CleanupExpired, EnvironmentMay;
    match e
    case Ask(r, _) => AskStaysLoose(cfg, w, r, h);
    case Poll => PollStaysLoose(cfg, w, h);
    case Answer(ready, ip, _) => FinishStaysLoose(cfg, w, ready, ip, h);
    case Abandon => AbandonStrands(cfg, w, h);
    case IdleSweep(order, now, _) => DropAllStaysLoose(cfg, w, IdleAmong(cfg, w.pods, now, order), now, h);
    case HealthSweep(order, now, f) =>
      RefreshStaysLoose(cfg, w, h);
      DropAllStaysLoose(cfg, RefreshAll(w, f), UnhealthyAmong(w, f, order), now, h);
    case PvcSweep(listing, now, f) => SweepStaysLoose(cfg, w, listing, now, h);
    case Environment(after) => EnvironmentStaysLoose(cfg, w, after, h);
    case CrashAndRestart(boot, _) => RestartStaysLoose(cfg, w, boot, h);
  }

  lemma SweepStaysLoose(cfg: Settings, w: World, listing: seq<Name>, now: int, g: Hash)
    requires Loose(cfg, w)
    ensures var v := w.(cluster := CleanupExpired(cfg, w.cluster, w.pods.Keys, listing, now, NO_FAULTS));
            Loose(cfg, v) && (Stranded(v, g) <==> Stranded(w, g))
  {
    hide Loose, Stranded;
    RaisedStaysLoose(cfg, w, w.(cluster := CleanupExpired(cfg, w.cluster, w.pods.Keys, listing, now, NO_FAULTS)), g);
  }

  lemma {:induction false} CalmRunStaysLoose(cfg: Settings, ws: seq<World>, es: seq<Event>, i: nat)
    requires IsCalmRun(cfg, ws, es) && Loose(cfg, ws[0]) && i < |ws|
    ensures Loose(cfg, ws[i])
    decreases i
  {
    hide Loose, Next, Enabled, Calm;
    if i == 0 {
    } else {
      CalmRunStaysLoose(cfg, ws, es, i - 1);
      assert Calm(cfg, ws[i - 1], es[i - 1]) && ws[i - 1 + 1] == Next(cfg, ws[i - 1], es[i - 1]);
      CalmStep(cfg, ws[i - 1], es[i - 1], "");
    }
  }

  /** Exactly who gets stranded, and what that means, at each step of each such run. A cut-off wait
      strands its user; a restart strands exactly the users who have a secret but no pod object, so it
      frees a stranded user if and only if the pod object is still there; nothing else changes who is
      stranded. A request fails when it starts if and only if its user is stranded. */
  lemma StrandedUsers(cfg: Settings, ws: seq<World>, es: seq<Event>, i: nat, h: Hash)
    requires IsCalmRun(cfg, ws, es) && Loose(cfg, ws[0]) && i < |es|
    ensures Stranded(ws[i + 1], h) <==> StrandedNext(ws[i], es[i], h)
    ensures es[i].Ask? ==>
              (GetOrCreate(cfg, ws[i], es[i].request, es[i].faults).Raised? <==> Stranded(ws[i], es[i].request.hash))
  {
    hide Loose, Next, Enabled, Calm, Stranded, StrandedNext, GetOrCreate;
    CalmRunStaysLoose(cfg, ws, es, i);
    assert Calm(cfg, ws[i], es[i]) && ws[i + 1] == Next(cfg, ws[i], es[i]);
    CalmStep(cfg, ws[i], es[i], h);
  }

  /** So after a cut-off wait every request of its user fails until a restart. */
  lemma {:induction false} CutOffUserWaitsForRestart(cfg: Settings, ws: seq<World>, es: seq<Event>, i: nat, k: nat)
    requires IsCalmRun(cfg, ws, es) && Loose(cfg, ws[0])
    requires i < k < |ws| && es[i].Abandon? && forall j :: i < j < k ==> !es[j].CrashAndRestart?
    ensures var h := ws[i].creating.value.terminal.hash;
            && Stranded(ws[k], h)
            && (k < |es| && es[k].Ask? && es[k].request.hash == h
                ==> GetOrCreate(cfg, ws[k], es[k].request, es[k].faults).Raised?)
            && (k < |es| && es[k].CrashAndRestart?
                ==> (Stranded(ws[k + 1], h) <==> TerminalName(h) !in ws[k].cluster.pods))
    decreases k
  {
    hide Loose, Next, GetOrCreate, Stranded;
    assert Calm(cfg, ws[i], es[i]);
    var h := ws[i].creating.value.terminal.hash;
    if k == i + 1 {
      StrandedUsers(cfg, ws, es, i, h);
    } else {
      CutOffUserWaitsForRestart(cfg, ws, es, i, k - 1);
      StrandedUsers(cfg, ws, es, k - 1, h);
    }
    if k < |es| {
      StrandedUsers(cfg, ws, es, k, h);
      StrandedHasSecret(ws[k], h);
    }
  }

  lemma StrandedHasSecret(w: World, h: Hash)
    requires Stranded(w, h)
    ensures SecretName(h) in w.cluster.secrets
  {
  }

  // ---------- Left-over pods and capacity ----------

  /** The pods without a live user. */
  ghost function LeftOver(w: World): set<Name> {
    set n | n in w.cluster.pods && !(n.TerminalName? && Live(w, n.hash))
  }

  lemma AskAddsPodOfLiveUser(cfg: Settings, w: World, r: Request)
    requires Loose(cfg, w) && w.creating.None? && Enumerates(r.order, w.pods.Keys) && IsHash(r.hash)
    ensures var v := GetOrCreate(cfg, w, r, NO_FAULTS).world;
            forall n :: n in v.cluster.pods ==> n in w.cluster.pods || (n == TerminalName(r.hash) && Live(v, r.hash))
  {
    hide Loose, GetOrCreate, MakeRoom, StartCreation, Enumerates, Stranded;
    LooseIsTracked(cfg, w);
    AskUnfolds(cfg, w, r, NO_FAULTS);
    if r.hash !in w.pods {
      var v := MakeRoom(cfg, w, r.order, r.now, NO_FAULTS);
      var t := Create(cfg, r.userId, r.hash, r.key, r.now);
      MakeRoomShape(cfg, w, r.order, r.now, NO_FAULTS);
      MakeRoomShrinksPods(cfg, w, r.order, r.now);
      MakeRoomStaysLoose(cfg, w, r.order, r.now, r.hash);
      LooseCreation(cfg, v, r.userId, r.hash, r.key, r.listing, r.now);
      StartCreationShape(cfg, v, t, r.listing, r.now, NO_FAULTS);
    }
  }

  lemma LooseCreation(cfg: Settings, w: World, userId: string, h: Hash, key: ApiKey, listing: seq<Name>, now: int)
    requires Loose(cfg, w)
    ensures var t := Create(cfg, userId, h, key, now);
            CreatesOrConflicts(cfg, w, t, StartCreation(cfg, w, t, listing, now, NO_FAULTS))
  {
    hide CreatesOrConflicts, StartCreation;
    SecretlessUserHasNothing(cfg, w, h);
    StartCreationCore(cfg, w, userId, h, key, listing, now);
  }

  /** Only requests add pods, and only pods of live users. */
  lemma NewPodsHaveLiveUsers(cfg: Settings, w: World, e: Event)
    requires Loose(cfg, w) && Calm(cfg, w, e) && !e.CrashAndRestart?
    ensures var v := Next(cfg, w, e);
            forall n :: n in v.cluster.pods ==>
              n in w.cluster.pods || (e.Ask? && n == TerminalName(e.request.hash) && Live(v, n.hash))
  {
    hide Loose, GetOrCreate, DropAll, RefreshAll, Live;
    match e
    case Ask(r, _) => AskAddsPodOfLiveUser(cfg, w, r);
    case Poll =>
    case Answer(_, _, _) =>
    case Abandon =>
    case IdleSweep(order, now, _) => DropAllShrinksPods(cfg, w, IdleAmong(cfg, w.pods, now, order), now);
    case HealthSweep(order, now, f) =>
      RefreshKeepsCluster(w, f);
      DropAllShrinksPods(cfg, RefreshAll(w, f), UnhealthyAmong(w, f, order), now);
    case PvcSweep(_, _, _) =>
    case Environment(_) =>
  }

  lemma RefreshKeepsCluster(w: World, f: Faults)
    ensures RefreshAll(w, f).cluster == w.cluster
  {
  }

  lemma LeftOverIsStranded(cfg: Settings, w: World, n: Name)
    requires Loose(cfg, w) && n in w.cluster.pods
    ensures n in LeftOver(w) <==> Stranded(w, n.hash)
  {
    assert n == TerminalName(n.hash);
  }

  lemma PodIsNamed(cfg: Settings, w: World, n: Name)
    requires Loose(cfg, w) && n in w.cluster.pods
    ensures n.TerminalName?
  {
  }

  lemma RestartLeavesNoneOver(cfg: Settings, w: World, e: Event, n: Name)
    requires Loose(cfg, w) && Calm(cfg, w, e) && e.CrashAndRestart? && n in Next(cfg, w, e).cluster.pods
    ensures n !in LeftOver(Next(cfg, w, e))
  {
    hide Restart, TerminalsNamed, Paired, LiveUsersHaveSecrets, Complete;
    RestartEffect(cfg, w, e.boot);
    assert IsUp(w.cluster, n);
    assert n == TerminalName(n.hash);
  }

  lemma LeftOverOrigin(cfg: Settings, w: World, e: Event, n: Name)
    requires Loose(cfg, w) && Calm(cfg, w, e) && n in LeftOver(Next(cfg, w, e))
    ensures !e.CrashAndRestart?
    ensures n in LeftOver(w) || (e.Abandon? && w.creating.Some? && n == TerminalName(w.creating.value.terminal.hash))
  {
    hide Loose, Next, Enabled, Live, Stranded;
    CalmStep(cfg, w, e, "");
    PodIsNamed(cfg, Next(cfg, w, e), n);
    CalmStep(cfg, w, e, n.hash);
    LeftOverIsStranded(cfg, Next(cfg, w, e), n);
    if e.CrashAndRestart? {
      RestartLeavesNoneOver(cfg, w, e, n);
    } else {
      NewPodsHaveLiveUsers(cfg, w, e);
      LeftOverIsStranded(cfg, w, n);
    }
  }

  /** A cut-off wait leaves one pod over, a restart leaves none, and no other step makes a new one. */
  lemma LeftOverStep(cfg: Settings, w: World, e: Event)
    requires Loose(cfg, w) && Calm(cfg, w, e)
    ensures e.Abandon? ==>
              && w.creating.Some?
              && LeftOver(Next(cfg, w, e)) <= LeftOver(w) + {TerminalName(w.creating.value.terminal.hash)}
    ensures e.CrashAndRestart? ==> LeftOver(Next(cfg, w, e)) == {}
    ensures !e.Abandon? ==> LeftOver(Next(cfg, w, e)) <= LeftOver(w)
  {
    hide Loose, Next, LeftOver;
    forall n | n in LeftOver(Next(cfg, w, e))
      ensures !e.CrashAndRestart?
      ensures n in LeftOver(w) || (e.Abandon? && w.creating.Some? && n == TerminalName(w.creating.value.terminal.hash))
    {
      LeftOverOrigin(cfg, w, e, n);
    }
  }

  lemma LiveUsersAreCounted(w: World)
    ensures |LiveUsers(w)| <= Load(w)
  {
    assert |w.pods| == |w.pods.Keys|;
  }

  lemma RestartKeepsOldPods(cfg: Settings, w: World, e: Event)
    requires Loose(cfg, w) && Calm(cfg, w, e) && e.CrashAndRestart?
    ensures OnlyPodsOf(w.cluster, Next(cfg, w, e).cluster)
  {
    hide Restart, TerminalsNamed, Paired, LiveUsersHaveSecrets, Complete, Readopted;
    RestartEffect(cfg, w, e.boot);
  }

  /** Every pod belongs to a live user or is left over. */
  lemma PodsWithinLoad(w: World)
    ensures |w.cluster.pods| <= Load(w) + |LeftOver(w)|
  {
    hide Load;
    var names := w.cluster.pods.Keys;
    LiveUsersAreCounted(w);
    NamesAreCounted(names - LeftOver(w), LiveUsers(w));
    assert names == LeftOver(w) + (names - LeftOver(w));
    assert |w.cluster.pods| == |names|;
  }

  lemma LooseRestartWithinPods(cfg: Settings, w: World, boot: Boot)
    requires Loose(cfg, w) && BootFits(cfg, w.cluster, boot) && Complete(boot.listing, w.cluster)
    ensures Load(Restart(cfg, w, boot, NO_FAULTS)) <= |w.cluster.pods|
  {
    hide Restart, TerminalsNamed, Paired, LiveUsersHaveSecrets, Complete, Adopted;
    RestartEffect(cfg, w, boot);
    var v := Restart(cfg, w, boot, NO_FAULTS);
    UsersAreCounted(v.pods.Keys, w.cluster.pods.Keys);
    assert |v.pods| == |v.pods.Keys| && |w.cluster.pods| == |w.cluster.pods.Keys|;
  }

  lemma SubsetSize<T>(a: set<T>, b: set<T>)
    requires a <= b
    ensures |a| <= |b|
  {
    assert b == a + (b - a);
  }

  /** The load stays within the larger of itself and the bound, except that a restart may adopt every pod. */
  lemma LooseLoadStep(cfg: Settings, w: World, e: Event, bound: int)
    requires Loose(cfg, w) && Calm(cfg, w, e) && bound >= 1 && bound >= cfg.maxPods
    ensures Load(Next(cfg, w, e)) <= if e.CrashAndRestart? then |w.cluster.pods| else Max(bound, Load(w))
    ensures |LeftOver(Next(cfg, w, e))|
            <= (if e.CrashAndRestart? then 0 else |LeftOver(w)|) + if e.Abandon? then 1 else 0
  {
    hide Loose, Restart, GetOrCreate, FinishCreation, CleanupIdle, CheckHealth, LeftOver, EnvironmentMay;
    LooseIsTracked(cfg, w);
    LeftOverStep(cfg, w, e);
    if e.CrashAndRestart? {
      LooseRestartWithinPods(cfg, w, e.boot);
    } else {
      CapacityStep(cfg, w, e, Max(bound, Load(w)));
      if e.Abandon? {
        SubsetSize(LeftOver(Next(cfg, w, e)), LeftOver(w) + {TerminalName(w.creating.value.terminal.hash)});
      } else {
        SubsetSize(LeftOver(Next(cfg, w, e)), LeftOver(w));
      }
    }
  }

  /** How many of the first `i` events cut a wait off. */
  function CutOffs(es: seq<Event>, i: nat): nat
    requires i <= |es|
  {
    if i == 0 then 0 else CutOffs(es, i - 1) + if es[i - 1].Abandon? then 1 else 0
  }

  /** In every such run, restarts included: left-over pods count against no limit, so each cut-off wait may
      add one pod to the bound for good, because a restart adopts it. */
  lemma {:induction false} CapacityWithCutOffs(cfg: Settings, ws: seq<World>, es: seq<Event>, i: nat)
    requires IsCalmRun(cfg, ws, es) && Loose(cfg, ws[0]) && i < |ws|
    ensures |LeftOver(ws[i])| <= |LeftOver(ws[0])| + CutOffs(es, i)
    ensures |ws[i].cluster.pods| <= Load(ws[i]) + |LeftOver(ws[i])|
                                 <= Max(1, Max(cfg.maxPods, Load(ws[0]))) + |LeftOver(ws[0])| + CutOffs(es, i)
    decreases i
  {
    hide Loose, Next, Enabled, Load, LeftOver, Calm;
    CalmRunStaysLoose(cfg, ws, es, i);
    PodsWithinLoad(ws[i]);
    if i == 0 {
    } else {
      CapacityWithCutOffs(cfg, ws, es, i - 1);
      CalmRunStaysLoose(cfg, ws, es, i - 1);
      assert Calm(cfg, ws[i - 1], es[i - 1]) && ws[i - 1 + 1] == Next(cfg, ws[i - 1], es[i - 1]);
      LooseLoadStep(cfg, ws[i - 1], es[i - 1], Max(1, Max(cfg.maxPods, Load(ws[0]))));
    }
  }
}
