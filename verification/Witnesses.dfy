/** Short runs, each from a fresh process over an empty namespace, that end in the situations in which
    the code does not do what one might expect. So none of those situations is hypothetical. */
module Witnesses {
  import opened Basics
  import opened Names
  import opened Base64
  import opened Terminals
  import opened ClusterModel
  import opened PodBuilder
  import opened Storage
  import opened Lifecycle
  import opened Runs
  import opened Tracking
  import opened Agreement
  import opened Recovery
  import opened Interruptions
  import opened Retention
  import opened Claims
  import opened CoLocation

  const FRESH: World := World(map[], None, None, Cluster(map[], map[], map[], map[]))

  lemma FreshIsProper(cfg: Settings)
    ensures Initial(FRESH) && Consistent(cfg, FRESH) && NoOrphans(FRESH) && Loose(cfg, FRESH)
    ensures Labelled(FRESH.cluster) && Mounted(FRESH.cluster)
  {
    EmptyNamespaceAgrees(cfg, FRESH);
    ConsistentIsLoose(cfg, FRESH);
  }

  /** The run starts fresh and ends in its last state after all its events. */
  ghost predicate StartsFresh(ws: seq<World>, es: seq<Event>, n: nat) {
    |es| == n && |ws| == n + 1 && ws[0] == FRESH
  }

  function RequestBy(userId: string, h: Hash, key: ApiKey, now: int, listing: seq<Name>): Request {
    Request(userId, h, key, now, [], listing)
  }

  /** The state while the first user's pod starts. */
  ghost predicate Opened(cfg: Settings, w: World, h: Hash, now: int) {
    && w.pods == map[] && w.creating.Some? && w.creating.value.seen.None?
    && w.creating.value.terminal.hash == h && w.creating.value.terminal.Named(h)
    && w.creating.value.terminal.lastActiveAt == now
    && w.cluster.pods.Keys == {TerminalName(h)} && w.cluster.pods[TerminalName(h)].phase == Pending
    && w.cluster.services.Keys == {TerminalName(h)} && w.cluster.secrets.Keys == {SecretName(h)}
    && (cfg.mode == PerUser ==> w.cluster.pvcs == map[UserPvcName(h) := Pvc(UserClaim, Some(h), Stamp(now), Some(now))])
    && (cfg.mode == SharedRwo ==> Unscheduled(w.cluster, TerminalName(h)))
  }

  lemma OpeningStorage(cfg: Settings, t: TerminalPod, h: Hash, now: int)
    requires NamedFor(cfg, t, h)
    ensures var a := PrepareStorage(cfg, FRESH, t, [], now, NO_FAULTS);
            && (cfg.mode == PerUser ==>
                  a.world.cluster.pvcs == map[UserPvcName(h) := Pvc(UserClaim, Some(h), Stamp(now), Some(now))])
            && (cfg.mode == SharedRwo ==> a.world.sharedNode.None?)
  {
  }

  lemma Opening(cfg: Settings, userId: string, h: Hash, key: ApiKey, now: int) returns (ask: Event, w: World)
    requires IsHash(h)
    ensures ask.Ask? && ask.request.hash == h && ask.request.now == now
    ensures Clean(cfg, FRESH, ask) && w == Next(cfg, FRESH, ask) && Opened(cfg, w, h, now)
  {
    hide StartCreation, PrepareStorage, BuildPodForUser, ShapedFor, NamedFor;
    var r := RequestBy(userId, h, key, now, []);
    var t := Create(cfg, userId, h, key, now);
    ask := Ask(r, NO_FAULTS);
    w := GetOrCreate(cfg, FRESH, r, NO_FAULTS).world;
    assert Oldest(FRESH.pods, []) == None;
    assert MakeRoom(cfg, FRESH, [], now, NO_FAULTS) == FRESH;
    CreatedIsNamed(cfg, userId, h, key, now);
    OpeningStorage(cfg, t, h, now);
    StartCreationCore(cfg, FRESH, userId, h, key, [], now);
    StartCreationShape(cfg, FRESH, t, [], now, NO_FAULTS);
    StartKeepsClaims(cfg, FRESH, t, [], now);
    StartRemembersNode(cfg, FRESH, t, [], now);
  }

  lemma CreatedIsNamed(cfg: Settings, userId: string, h: Hash, key: ApiKey, now: int)
    ensures NamedFor(cfg, Create(cfg, userId, h, key, now), h)
  {
  }

  lemma CleanRunOf(cfg: Settings, ws: seq<World>, es: seq<Event>)
    requires |ws| == |es| + 1
    requires forall i :: 0 <= i < |es| ==> Clean(cfg, ws[i], es[i]) && ws[i + 1] == Next(cfg, ws[i], es[i])
    ensures IsCleanRun(cfg, ws, es)
  {
    hide Next, Enabled;
  }

  lemma CalmIsEnabled(cfg: Settings, w: World, e: Event)
    requires Calm(cfg, w, e)
    ensures Enabled(cfg, w, e)
  {
  }

  lemma CalmRunOf(cfg: Settings, ws: seq<World>, es: seq<Event>)
    requires |ws| == |es| + 1
    requires forall i :: 0 <= i < |es| ==> Calm(cfg, ws[i], es[i]) && ws[i + 1] == Next(cfg, ws[i], es[i])
    ensures IsCalmRun(cfg, ws, es)
  {
    hide Next, Enabled, Calm;
    forall i | 0 <= i < |es| ensures Enabled(cfg, ws[i], es[i]) {
      assert Calm(cfg, ws[i], es[i]);
      CalmIsEnabled(cfg, ws[i], es[i]);
    }
  }

  // ---------- Claims deleted too early ----------

  /** The first sweep after the TTL of the stamp `stamp`. */
  function SweepAfter(cfg: Settings, h: Hash, stamp: int): Event {
    PvcSweep([UserPvcName(h)], stamp + cfg.pvcTtl * SECOND + 1, NO_FAULTS)
  }

  lemma SweepDeletes(cfg: Settings, w: World, h: Hash, stamp: int)
    requires Retains(cfg) && cfg.pvcTtl > 0 && h !in w.pods
    requires w.cluster.pvcs == map[UserPvcName(h) := Pvc(UserClaim, Some(h), Stamp(stamp), Some(stamp))]
    ensures Clean(cfg, w, SweepAfter(cfg, h, stamp)) && SweptAway(cfg, w, SweepAfter(cfg, h, stamp), h)
    ensures UserPvcName(h) !in Next(cfg, w, SweepAfter(cfg, h, stamp)).cluster.pvcs
  {
    assert Uncut(w.cluster, w.pods.Keys, [UserPvcName(h)], 0);
    assert Reaches(w.cluster, w.pods.Keys, [UserPvcName(h)], UserPvcName(h));
  }

  lemma OpenedHasClaim(cfg: Settings, w: World, h: Hash, now: int)
    requires Opened(cfg, w, h, now) && cfg.mode == PerUser
    ensures h !in w.pods && TerminalName(h) in w.cluster.pods
    ensures w.cluster.pvcs == map[UserPvcName(h) := Pvc(UserClaim, Some(h), Stamp(now), Some(now))]
  {
  }

  /** A sweep deletes the claim of a pod that is still starting. */
  lemma SweepOvertakesStartingPod(cfg: Settings, userId: string, h: Hash, key: ApiKey)
    returns (ws: seq<World>, es: seq<Event>)
    requires Retains(cfg) && cfg.pvcTtl > 0 && IsHash(h)
    ensures StartsFresh(ws, es, 2) && IsCleanRun(cfg, ws, es)
    ensures Mounted(ws[1].cluster) && Overtakes(cfg, ws[1], es[1]) && !Mounted(ws[2].cluster)
  {
    hide Overtakes, SweptAway, Opened, Next, Clean, Enabled, Mounted, Loose;
    var ask, w := Opening(cfg, userId, h, key, 0);
    OpenedHasClaim(cfg, w, h, 0);
    var sweep := SweepAfter(cfg, h, 0);
    SweepDeletes(cfg, w, h, 0);
    ws, es := [FRESH, w, Next(cfg, w, sweep)], [ask, sweep];
    CleanRunOf(cfg, ws, es);
    FreshIsProper(cfg);
    AskNeverOvertakes(cfg, FRESH, ask);
    MountedStepIff(cfg, FRESH, ask);
    CalmStep(cfg, FRESH, ask, h);
    SweptPodIsOvertaken(cfg, w, sweep, h);
    MountedStepIff(cfg, w, sweep);
  }

  lemma AskNeverOvertakes(cfg: Settings, w: World, e: Event)
    requires e.Ask?
    ensures !Overtakes(cfg, w, e)
  {
  }

  lemma SweptPodIsOvertaken(cfg: Settings, w: World, e: Event, h: Hash)
    requires TerminalName(h) in w.cluster.pods && SweptAway(cfg, w, e, h)
    ensures Overtakes(cfg, w, e)
  {
    hide SweptAway;
    assert TerminalName(h).hash == h;
  }

  lemma FailingLeavesClaim(cfg: Settings, w: World, h: Hash, now: int)
    requires Opened(cfg, w, h, now)
    ensures var answer := Answer(false, None, NO_FAULTS);
            && Clean(cfg, w, answer)
            && Next(cfg, w, answer).pods == map[] && Next(cfg, w, answer).cluster.pods == map[]
            && Next(cfg, w, answer).cluster.pvcs == w.cluster.pvcs
  {
  }

  /** A start fails after any wait; a sweep within the TTL of the pod's deletion deletes the claim. */
  lemma FailedStartLosesClaim(cfg: Settings, userId: string, h: Hash, key: ApiKey, waited: int)
    returns (ws: seq<World>, es: seq<Event>)
    requires Retains(cfg) && cfg.pvcTtl > 0 && IsHash(h) && waited > 0
    ensures StartsFresh(ws, es, 3) && IsCleanRun(cfg, ws, es)
    ensures es[1] == Answer(false, None, NO_FAULTS) && TerminalName(h) in ws[1].cluster.pods
    ensures TerminalName(h) !in ws[2].cluster.pods && UserPvcName(h) in ws[2].cluster.pvcs
    ensures es[2].PvcSweep? && es[2].now - waited <= cfg.pvcTtl * SECOND && UserPvcName(h) !in ws[3].cluster.pvcs
    ensures !FullGrace(cfg, ws[2], h, waited)
  {
    hide SweptAway, Opened, Next, Clean, Enabled, FullGrace;
    var ask, w := Opening(cfg, userId, h, key, 0);
    OpenedHasClaim(cfg, w, h, 0);
    FailingLeavesClaim(cfg, w, h, 0);
    var v := Next(cfg, w, Answer(false, None, NO_FAULTS));
    var sweep := SweepAfter(cfg, h, 0);
    SweepDeletes(cfg, v, h, 0);
    ws, es := [FRESH, w, v, Next(cfg, v, sweep)], [ask, Answer(false, None, NO_FAULTS), sweep];
    CleanRunOf(cfg, ws, es);
    GraceIsCut(cfg, v, h, sweep, waited);
  }

  lemma GraceIsCut(cfg: Settings, w: World, h: Hash, sweep: Event, deleted: int)
    requires sweep.PvcSweep? && sweep.faults == NO_FAULTS && sweep.listing == [UserPvcName(h)]
    requires w.cluster.pvcs.Keys == {UserPvcName(h)} && sweep.now - deleted <= cfg.pvcTtl * SECOND
    requires UserPvcName(h) !in Next(cfg, w, sweep).cluster.pvcs
    ensures !FullGrace(cfg, w, h, deleted)
  {
    hide CleanupExpired;
    assert Enumerates(sweep.listing, w.cluster.pvcs.Keys);
  }

  /** The answer of start-up to the first user's pod: it is listed alone. */
  function BootOver(h: Hash, key: ApiKey, now: int): Boot {
    Boot([TerminalName(h)], [now], [key])
  }

  lemma BootOverFits(cfg: Settings, w: World, h: Hash, key: ApiKey, now: int)
    requires w.cluster.pods.Keys <= {TerminalName(h)}
    ensures Clean(cfg, w, CrashAndRestart(BootOver(h, key, now), NO_FAULTS))
  {
  }

  lemma RestartForgetsStarting(cfg: Settings, w: World, h: Hash, key: ApiKey, now: int, restarted: int)
    requires Opened(cfg, w, h, now) && Consistent(cfg, w)
    ensures var restart := CrashAndRestart(BootOver(h, key, restarted), NO_FAULTS);
            && Clean(cfg, w, restart)
            && Next(cfg, w, restart).pods == map[] && Next(cfg, w, restart).cluster.pods == map[]
            && Next(cfg, w, restart).cluster.pvcs == w.cluster.pvcs
  {
    hide Consistent;
    BootOverFits(cfg, w, h, key, restarted);
    NothingIsTracked(cfg, w, BootOver(h, key, restarted), h);
  }

  /** A restart while the pod starts removes it; a sweep within the TTL of that deletes the claim. */
  lemma RestartLosesClaim(cfg: Settings, userId: string, h: Hash, key: ApiKey, waited: int)
    returns (ws: seq<World>, es: seq<Event>)
    requires Retains(cfg) && cfg.pvcTtl > 0 && IsHash(h) && waited > 0
    ensures StartsFresh(ws, es, 3) && IsCleanRun(cfg, ws, es)
    ensures es[1].CrashAndRestart? && TerminalName(h) in ws[1].cluster.pods
    ensures TerminalName(h) !in ws[2].cluster.pods && UserPvcName(h) in ws[2].cluster.pvcs
    ensures es[2].PvcSweep? && es[2].now - waited <= cfg.pvcTtl * SECOND && UserPvcName(h) !in ws[3].cluster.pvcs
    ensures !FullGrace(cfg, ws[2], h, waited)
  {
    hide SweptAway, Opened, Next, Enabled, FullGrace, Consistent;
    var ask, w := Opening(cfg, userId, h, key, 0);
    OpenedHasClaim(cfg, w, h, 0);
    FreshIsProper(cfg);
    AnyCleanStep(cfg, FRESH, ask);
    RestartForgetsStarting(cfg, w, h, key, 0, waited);
    var restart := CrashAndRestart(BootOver(h, key, waited), NO_FAULTS);
    var v := Next(cfg, w, restart);
    var sweep := SweepAfter(cfg, h, 0);
    SweepDeletes(cfg, v, h, 0);
    ws, es := [FRESH, w, v, Next(cfg, v, sweep)], [ask, restart, sweep];
    CleanRunOf(cfg, ws, es);
    GraceIsCut(cfg, v, h, sweep, waited);
  }

  // ---------- Users locked out ----------

  /** A killed pod and a restart: the user's next request fails. */
  lemma KilledPodLocksOut(cfg: Settings, userId: string, h: Hash, key: ApiKey)
    returns (ws: seq<World>, es: seq<Event>)
    requires IsHash(h)
    ensures StartsFresh(ws, es, 4) && IsCleanRun(cfg, ws, es)
    ensures es[1].Environment? && es[2].CrashAndRestart? && es[3].Ask? && es[3].request.hash == h
    ensures Orphaned(ws[3], h) && GetOrCreate(cfg, ws[3], es[3].request, NO_FAULTS).Raised?
  {
    hide Next, Enabled, Consistent, Orphaned, GetOrCreate, Enumerates, Complete;
    var ask, w := Opening(cfg, userId, h, key, 0);
    FreshIsProper(cfg);
    AnyCleanStep(cfg, FRESH, ask);
    var boot := BootOver(h, key, 1);
    CompleteListing(w.cluster, TerminalName(h));
    assert Live(w, h);
    var killed := KillThenCrashOrphans(cfg, w, h, boot);
    var v := w.(cluster := killed);
    NextIsEnvironment(cfg, w, killed);
    AnyCleanStep(cfg, w, Environment(killed));
    var restart := CrashAndRestart(boot, NO_FAULTS);
    var u := Next(cfg, v, restart);
    AnyCleanStep(cfg, v, restart);
    NothingIsTracked(cfg, v, boot, h);
    var again := Ask(RequestBy(userId, h, key, 2, [TerminalName(h)]), NO_FAULTS);
    AskIsClean(cfg, u, again.request, h);
    RequestFailsIffOrphaned(cfg, u, again.request);
    ws, es := [FRESH, w, v, u, Next(cfg, u, again)], [ask, Environment(killed), restart, again];
    CleanRunOf(cfg, ws, es);
  }

  lemma CompleteListing(c: Cluster, n: Name)
    requires c.pods.Keys <= {n}
    ensures Complete([n], c)
  {
  }

  lemma NextIsEnvironment(cfg: Settings, w: World, after: Cluster)
    ensures Next(cfg, w, Environment(after)) == w.(cluster := after)
  {
  }

  /** If the only pod, at most, is not Running, a restart tracks nobody and keeps every claim. */
  lemma NothingIsTracked(cfg: Settings, v: World, boot: Boot, h: Hash)
    requires Consistent(cfg, v) && Clean(cfg, v, CrashAndRestart(boot, NO_FAULTS))
    requires v.cluster.pods.Keys <= {TerminalName(h)} && !IsUp(v.cluster, TerminalName(h))
    ensures var u := Next(cfg, v, CrashAndRestart(boot, NO_FAULTS));
            u.pods == map[] && u.creating.None? && u.cluster.pods == map[] && u.cluster.pvcs == v.cluster.pvcs
  {
    hide Restart, Consistent, Complete, Orderly, Adopted;
    CleanRestart(cfg, v, CrashAndRestart(boot, NO_FAULTS));
    ConsistentIsOrderly(cfg, v);
    RestartEffect(cfg, v, boot);
    assert forall n :: !IsUp(v.cluster, n);
  }

  lemma AskIsClean(cfg: Settings, w: World, r: Request, h: Hash)
    requires w.pods == map[] && w.creating.None? && w.cluster.pods.Keys <= {TerminalName(h)}
    requires r.order == [] && IsHash(r.hash) && r.listing == [TerminalName(h)]
    ensures Clean(cfg, w, Ask(r, NO_FAULTS)) && Enumerates(r.order, w.pods.Keys)
  {
  }

  lemma CleanStepIsCalm(cfg: Settings, w: World, e: Event)
    requires Clean(cfg, w, e)
    ensures Calm(cfg, w, e)
  {
  }

  lemma OpenedBasics(cfg: Settings, w: World, h: Hash, now: int)
    requires Opened(cfg, w, h, now)
    ensures w.pods == map[] && w.cluster.pods.Keys == {TerminalName(h)}
    ensures w.creating.Some? && w.creating.value.terminal.hash == h
  {
  }

  lemma AbandonIsCalm(cfg: Settings, w: World, h: Hash, now: int)
    requires Opened(cfg, w, h, now)
    ensures Calm(cfg, w, Abandon) && Next(cfg, w, Abandon) == w.(creating := None)
  {
  }

  /** A request whose wait is cut off: the next request of the user fails, until a restart that still finds
      the pod. */
  lemma CutOffLocksOutUntilRestart(cfg: Settings, userId: string, h: Hash, key: ApiKey)
    returns (ws: seq<World>, es: seq<Event>)
    requires IsHash(h)
    ensures StartsFresh(ws, es, 4) && IsCalmRun(cfg, ws, es)
    ensures es[1] == Abandon && es[2].Ask? && es[2].request.hash == h && es[3].CrashAndRestart?
    ensures Stranded(ws[2], h) && GetOrCreate(cfg, ws[2], es[2].request, NO_FAULTS).Raised? && !Stranded(ws[4], h)
  {
    hide Next, Clean, Calm, Enabled, GetOrCreate, Stranded, Loose, Enumerates, Complete;
    var ask, w := Opening(cfg, userId, h, key, 0);
    var v := w.(creating := None);
    CleanStepIsCalm(cfg, FRESH, ask);
    AbandonIsCalm(cfg, w, h, 0);
    var again := Ask(RequestBy(userId, h, key, 1, [TerminalName(h)]), NO_FAULTS);
    AskIsClean(cfg, v, again.request, h);
    CleanStepIsCalm(cfg, v, again);
    FreshIsProper(cfg);
    CalmStep(cfg, FRESH, ask, h);
    CalmStep(cfg, w, Abandon, h);
    CalmStep(cfg, v, again, h);
    var u := Next(cfg, v, again);
    RaisedAddsNoPod(cfg, v, again);
    var restart := CrashAndRestart(BootOver(h, key, 2), NO_FAULTS);
    BootOverFits(cfg, u, h, key, 2);
    CleanStepIsCalm(cfg, u, restart);
    CalmStep(cfg, u, restart, h);
    ws, es := [FRESH, w, v, u, Next(cfg, u, restart)], [ask, Abandon, again, restart];
    CalmRunOf(cfg, ws, es);
  }

  /** A failing request of an untracked user changes no pod if nothing is tracked. */
  lemma RaisedAddsNoPod(cfg: Settings, w: World, e: Event)
    requires Loose(cfg, w) && Clean(cfg, w, e) && e.Ask? && w.pods == map[]
    requires GetOrCreate(cfg, w, e.request, e.faults).Raised?
    ensures Next(cfg, w, e).cluster.pods == w.cluster.pods
  {
    hide Loose, StartCreation, Enumerates, Complete;
    LooseIsTracked(cfg, w);
    AskUnfolds(cfg, w, e.request, NO_FAULTS);
    assert MakeRoom(cfg, w, e.request.order, e.request.now, NO_FAULTS) == w;
    LooseCreation(cfg, w, e.request.userId, e.request.hash, e.request.key, e.request.listing, e.request.now);
  }

  lemma KillingIsClean(cfg: Settings, w: World, h: Hash)
    requires w.cluster.pods.Keys == {TerminalName(h)}
    ensures Clean(cfg, w, Environment(w.cluster.(pods := map[])))
  {
  }

  /** If the pod is gone by then, the restart does not help. */
  lemma CutOffLocksOutForGood(cfg: Settings, userId: string, h: Hash, key: ApiKey)
    returns (ws: seq<World>, es: seq<Event>)
    requires IsHash(h)
    ensures StartsFresh(ws, es, 4) && IsCalmRun(cfg, ws, es)
    ensures es[1] == Abandon && es[2].Environment? && es[3].CrashAndRestart? && Stranded(ws[4], h)
  {
    hide Next, Clean, Calm, Enabled, Stranded, Loose, Complete, Opened;
    var ask, w := Opening(cfg, userId, h, key, 0);
    OpenedBasics(cfg, w, h, 0);
    CleanStepIsCalm(cfg, FRESH, ask);
    AbandonIsCalm(cfg, w, h, 0);
    var v := w.(creating := None);
    KillingIsClean(cfg, v, h);
    var killing := Environment(v.cluster.(pods := map[]));
    CleanStepIsCalm(cfg, v, killing);
    NextIsEnvironment(cfg, v, killing.after);
    var u := v.(cluster := killing.after);
    var restart := CrashAndRestart(BootOver(h, key, 2), NO_FAULTS);
    BootOverFits(cfg, u, h, key, 2);
    CleanStepIsCalm(cfg, u, restart);
    CalmIsEnabled(cfg, u, restart);
    ws, es := [FRESH, w, v, u, Next(cfg, u, restart)], [ask, Abandon, killing, restart];
    CalmRunOf(cfg, ws, es);
    FreshIsProper(cfg);
    CutOffUserWaitsForRestart(cfg, ws, es, 1, 3);
  }

  /** A cut-off wait and a second user put two pods into the cluster, whatever the limit. */
  lemma CutOffExceedsLimit(cfg: Settings, userId: string, g: Hash, h: Hash, key: ApiKey)
    returns (ws: seq<World>, es: seq<Event>)
    requires IsHash(g) && IsHash(h) && g != h
    ensures StartsFresh(ws, es, 3) && IsCalmRun(cfg, ws, es)
    ensures es[1] == Abandon && |ws[3].cluster.pods| == 2
  {
    hide Next, Clean, Calm, Enabled, GetOrCreate, Stranded, Loose, Enumerates, Complete;
    var ask, w := Opening(cfg, userId, g, key, 0);
    var v := w.(creating := None);
    CleanStepIsCalm(cfg, FRESH, ask);
    AbandonIsCalm(cfg, w, g, 0);
    var second := Ask(RequestBy(userId, h, key, 1, [TerminalName(g)]), NO_FAULTS);
    AskIsClean(cfg, v, second.request, g);
    CleanStepIsCalm(cfg, v, second);
    FreshIsProper(cfg);
    CalmStep(cfg, FRESH, ask, h);
    CalmStep(cfg, w, Abandon, h);
    CalmStep(cfg, v, second, h);
    NotStranded(v, h);
    SecondPodIsAdded(cfg, v, second, g, h);
    ws, es := [FRESH, w, v, Next(cfg, v, second)], [ask, Abandon, second];
    CalmRunOf(cfg, ws, es);
  }

  lemma SecondPodIsAdded(cfg: Settings, w: World, e: Event, g: Hash, h: Hash)
    requires Loose(cfg, w) && Clean(cfg, w, e) && e.Ask? && e.request.hash == h && g != h
    requires w.cluster.pods.Keys == {TerminalName(g)} && w.pods == map[]
    requires GetOrCreate(cfg, w, e.request, NO_FAULTS).Done?
    ensures |Next(cfg, w, e).cluster.pods| == 2
  {
    hide Loose, StartCreation, Enumerates, Complete;
    LooseIsTracked(cfg, w);
    AskUnfolds(cfg, w, e.request, NO_FAULTS);
    assert MakeRoom(cfg, w, e.request.order, e.request.now, NO_FAULTS) == w;
    LooseCreation(cfg, w, e.request.userId, e.request.hash, e.request.key, e.request.listing, e.request.now);
    var names := Next(cfg, w, e).cluster.pods.Keys;
    assert names == {TerminalName(g), TerminalName(h)};
    assert |Next(cfg, w, e).cluster.pods| == |names|;
  }

  // ---------- Shared pods on two nodes ----------

  /** In shared-RWO mode a cut-off wait and a second user suffice: the first pod has no node yet when the
      second is created, so neither is pinned, and the scheduler may place them apart. */
  lemma CutOffScattersPods(cfg: Settings, userId: string, g: Hash, h: Hash, key: ApiKey)
    returns (ws: seq<World>, es: seq<Event>)
    requires cfg.mode == SharedRwo && IsHash(g) && IsHash(h) && g != h
    ensures StartsFresh(ws, es, 4) && IsCalmRun(cfg, ws, es)
    ensures es[1] == Abandon && es[3].Environment? && OneNode(ws[3].cluster) && !OneNode(ws[4].cluster)
  {
    hide Next, Clean, Calm, Enabled, GetOrCreate, Stranded, Loose, Enumerates, Complete, OneNode, Exposed;
    var ask, w := Opening(cfg, userId, g, key, 0);
    var v := w.(creating := None);
    CleanStepIsCalm(cfg, FRESH, ask);
    AbandonIsCalm(cfg, w, g, 0);
    var second := Ask(RequestBy(userId, h, key, 1, [TerminalName(g)]), NO_FAULTS);
    AskIsClean(cfg, v, second.request, g);
    CleanStepIsCalm(cfg, v, second);
    FreshIsProper(cfg);
    CalmStep(cfg, FRESH, ask, h);
    CalmStep(cfg, w, Abandon, h);
    CalmStep(cfg, v, second, h);
    NotStranded(v, h);
    var u := Next(cfg, v, second);
    var ws3, es3 := [FRESH, w, v, u], [ask, Abandon, second];
    CalmRunOf(cfg, ws3, es3);
    NobodyUnscheduled(cfg, ask);
    OnlyAsksExpose(cfg, w);
    SecondIsExposed(cfg, v, second, g);
    var after := ExposureBreaksCoLocation(cfg, ws3, es3, 2);
    UnscheduledPodsAreOneNode(cfg, v, second, h, g);
    NextIsEnvironment(cfg, u, after);
    CleanStepIsCalm(cfg, u, Environment(after));
    ws, es := [FRESH, w, v, u, u.(cluster := after)], [ask, Abandon, second, Environment(after)];
    CalmRunOf(cfg, ws, es);
  }

  lemma OnlyAsksExpose(cfg: Settings, w: World)
    ensures !Exposed(cfg, w, Abandon)
  {
  }

  lemma SecondIsExposed(cfg: Settings, w: World, e: Event, g: Hash)
    requires e.Ask? && e.faults == NO_FAULTS && w.pods == map[] && Unscheduled(w.cluster, TerminalName(g))
    requires GetOrCreate(cfg, w, e.request, NO_FAULTS).Done?
    ensures Exposed(cfg, w, e)
  {
    hide GetOrCreate;
  }

  lemma NotStranded(w: World, h: Hash)
    requires SecretName(h) !in w.cluster.secrets
    ensures !Stranded(w, h)
  {
  }

  lemma NobodyUnscheduled(cfg: Settings, e: Event)
    ensures !Exposed(cfg, FRESH, e)
  {
  }

  /** Two pods that both lack a node are trivially together. */
  lemma UnscheduledPodsAreOneNode(cfg: Settings, w: World, e: Event, h: Hash, g: Hash)
    requires Loose(cfg, w) && Clean(cfg, w, e) && e.Ask? && e.request.hash == h
    requires w.cluster.pods.Keys == {TerminalName(g)} && Unscheduled(w.cluster, TerminalName(g)) && w.pods == map[]
    ensures OneNode(Next(cfg, w, e).cluster)
  {
    hide Loose, StartCreation, Enumerates, Complete;
    LooseIsTracked(cfg, w);
    AskUnfolds(cfg, w, e.request, NO_FAULTS);
    assert MakeRoom(cfg, w, e.request.order, e.request.now, NO_FAULTS) == w;
    LooseCreation(cfg, w, e.request.userId, e.request.hash, e.request.key, e.request.listing, e.request.now);
  }
}
