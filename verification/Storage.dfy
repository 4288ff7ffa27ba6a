/** Persistent storage: per-user claims with a retention clock, and the node of the shared claim. */
module Storage {
  import opened Basics
  import opened Names
  import opened Terminals
  import opened ClusterModel

  // None means that the operation raises.

  function EnsureSharedPvc(cfg: Settings, c: Cluster, now: int, f: Faults): Option<Cluster> {
    if cfg.mode != Shared && cfg.mode != SharedRwo then Some(c)
    else if On(GetPvc, SharedPvcName) in f then None
    else if SharedPvcName in c.pvcs then Some(c)
    else AddPvc(c, SharedPvcName, Pvc(SharedClaim, None, Missing, Some(now)), f)
  }

  /** The remembered node after `get_shared_pvc_node`, which is also its result in shared-RWO mode. */
  function SharedNode(
    cfg: Settings, cached: Option<string>, c: Cluster, order: seq<Name>, f: Faults): Option<Option<string>>
  {
    if cfg.mode != SharedRwo || Truthy(cached) then Some(cached)
    else if ListPods in f then None
    else Some(FirstMountNode(c, SharedPvcName, ListedPods(c, cfg.app, cfg.managedBy, order)))
  }

  function TouchPvc(c: Cluster, n: Name, now: int, f: Faults): Cluster {
    Swallow(Annotate(c, n, now, f), c)
  }

  function CreateUserPvc(cfg: Settings, c: Cluster, n: Name, h: Hash, now: int, f: Faults): Option<Cluster> {
    if cfg.mode != PerUser then Some(c)
    else if On(GetPvc, n) in f then None
    else if n in c.pvcs then Some(TouchPvc(c, n, now, f))
    else AddPvc(c, n, Pvc(UserClaim, Some(h), Stamp(now), Some(now)), f)
  }

  function DeleteUserPvc(cfg: Settings, c: Cluster, n: Name, f: Faults): Cluster {
    if cfg.mode != PerUser then c else Swallow(RemovePvc(c, n, f), c)
  }

  /** The time a claim counts as last used, if it can be told at all. */
  function LastActive(p: Pvc): Option<int> {
    match p.lastActive
    case Missing => p.created
    case Garbled => None
    case Zoned => None
    case Stamp(t) => Some(t)
  }

  /** The sweep considers the claim `p`. */
  predicate Unattended(p: Pvc, active: set<Hash>) {
    p.kind == UserClaim && !(p.user.Some? && p.user.value in active)
  }

  /** Subtracting a time with a UTC offset from one without raises, and nothing catches it inside the sweep. */
  predicate CutsOff(p: Pvc, active: set<Hash>) {
    Unattended(p, active) && p.lastActive.Zoned?
  }

  /** The sweep decides to delete the claim `p`. */
  predicate Expired(cfg: Settings, p: Pvc, active: set<Hash>, now: int) {
    && Unattended(p, active)
    && LastActive(p).Some?
    && now - LastActive(p).value > cfg.pvcTtl * SECOND
  }

  predicate SweepRuns(cfg: Settings, f: Faults) {
    cfg.retainPvc && cfg.pvcTtl > 0 && cfg.mode == PerUser && ListPvcs !in f
  }

  /** None of the first `k` listed claims cuts the sweep off. */
  ghost predicate Uncut(c: Cluster, active: set<Hash>, listing: seq<Name>, k: nat)
    requires k <= |listing|
  {
    forall i :: 0 <= i < k && listing[i] in c.pvcs ==> !CutsOff(c.pvcs[listing[i]], active)
  }

  /** The sweep gets as far as the claim `n`. */
  ghost predicate Reaches(c: Cluster, active: set<Hash>, listing: seq<Name>, n: Name) {
    exists k :: 0 <= k < |listing| && listing[k] == n && Uncut(c, active, listing, k)
  }

  /** The cluster after one retention sweep over the claims in the order `listing`. */
  ghost function CleanupExpired(
    cfg: Settings, c: Cluster, active: set<Hash>, listing: seq<Name>, now: int, f: Faults): Cluster
  {
    if !SweepRuns(cfg, f) then c
    else c.(pvcs := map n | n in c.pvcs && !(Expired(cfg, c.pvcs[n], active, now) && Reaches(c, active, listing, n)
                                             && On(DeletePvc, n) !in f) :: c.pvcs[n])
  }

  class StorageManager {
    const cfg: Settings
    const k8s: K8sClient
    var sharedPvcNode: Option<string>

    constructor (cfg: Settings, k8s: K8sClient)
      ensures this.cfg == cfg && this.k8s == k8s && sharedPvcNode == None
    {
      this.cfg, this.k8s, sharedPvcNode := cfg, k8s, None;
    }

    method EnsureShared(now: int) returns (ok: bool)
      modifies k8s`cluster
      ensures ok == EnsureSharedPvc(cfg, old(k8s.cluster), now, k8s.faults).Some?
      ensures k8s.cluster == Swallow(EnsureSharedPvc(cfg, old(k8s.cluster), now, k8s.faults), old(k8s.cluster))
    {
      if cfg.mode != Shared && cfg.mode != SharedRwo {
        return true;
      }
      if On(GetPvc, SharedPvcName) in k8s.faults {
        return false;
      }
      if SharedPvcName in k8s.cluster.pvcs {
        return true;
      }
      ok := k8s.CreatePvc(SharedPvcName, Pvc(SharedClaim, None, Missing, Some(now)));
    }

    /** Fills the cache on first use; `order` is the order of the API server's pod list. */
    method GetSharedNode(order: seq<Name>) returns (ok: bool, node: Option<string>)
      modifies this`sharedPvcNode
      ensures ok == SharedNode(cfg, old(sharedPvcNode), k8s.cluster, order, k8s.faults).Some?
      ensures sharedPvcNode == if ok then SharedNode(cfg, old(sharedPvcNode), k8s.cluster, order, k8s.faults).value
                               else old(sharedPvcNode)
      ensures ok ==> node == if cfg.mode == SharedRwo then sharedPvcNode else None
    {
      if cfg.mode != SharedRwo {
        return true, None;
      }
      if Truthy(sharedPvcNode) {
        return true, sharedPvcNode;
      }
      ok, node := k8s.GetSharedPvcNode(SharedPvcName, cfg.app, cfg.managedBy, order);
      if ok {
        sharedPvcNode := node;
      }
    }

    method Touch(n: Name, now: int)
      modifies k8s`cluster
      ensures k8s.cluster == TouchPvc(old(k8s.cluster), n, now, k8s.faults)
    {
      var _ := k8s.AnnotatePvc(n, now);
    }

    method CreateForUser(n: Name, h: Hash, now: int) returns (ok: bool)
      modifies k8s`cluster
      ensures ok == CreateUserPvc(cfg, old(k8s.cluster), n, h, now, k8s.faults).Some?
      ensures k8s.cluster == Swallow(CreateUserPvc(cfg, old(k8s.cluster), n, h, now, k8s.faults), old(k8s.cluster))
    {
      if cfg.mode != PerUser {
        return true;
      }
      if On(GetPvc, n) in k8s.faults {
        return false;
      }
      if n in k8s.cluster.pvcs {
        Touch(n, now);
        return true;
      }
      ok := k8s.CreatePvc(n, Pvc(UserClaim, Some(h), Stamp(now), Some(now)));
    }

    method DeleteForUser(n: Name)
      modifies k8s`cluster
      ensures k8s.cluster == DeleteUserPvc(cfg, old(k8s.cluster), n, k8s.faults)
    {
      if cfg.mode == PerUser {
        var _ := k8s.DeletePvc(n);
      }
    }

    /** The retention sweep; `listing` is the order of the API server's list. It is cut off, which the
        retention loop logs and forgets, at the first unattended claim whose annotation has a UTC offset. */
    method CleanupExpiredPvcs(active: set<Hash>, listing: seq<Name>, now: int) returns (completed: bool)
      modifies k8s`cluster
      ensures k8s.cluster == CleanupExpired(cfg, old(k8s.cluster), active, listing, now, k8s.faults)
      ensures completed <==> !SweepRuns(cfg, k8s.faults) || Uncut(old(k8s.cluster), active, listing, |listing|)
    {
      if !cfg.retainPvc || cfg.pvcTtl <= 0 {
        return true;
      }
      if cfg.mode != PerUser {
        return true;
      }
      if ListPvcs in k8s.faults {
        return true;
      }
      hide CleanupExpired, SweptUpTo;
      ghost var before := k8s.cluster;
      var listed := k8s.cluster.pvcs;
      NothingSwept(cfg, before, active, listing, now, k8s.faults);
      for i := 0 to |listing|
        invariant Uncut(before, active, listing, i)
        invariant k8s.cluster == SweptUpTo(cfg, before, active, listing, now, k8s.faults, i)
      {
        var n := listing[i];
        if n in listed && Unattended(listed[n], active) {
          if listed[n].lastActive.Zoned? {
            SweepIsCutOff(cfg, before, active, listing, now, k8s.faults, i);
            return false;
          }
          var last := LastActive(listed[n]);
          if last.Some? && now - last.value > cfg.pvcTtl * SECOND {
            DeleteForUser(n);
          }
        }
        OneMoreSwept(cfg, before, active, listing, now, k8s.faults, i);
      }
      WholeListSwept(cfg, before, active, listing, now, k8s.faults);
      return true;
    }
  }

  // ---------- One sweep ----------

  /** The cluster once the first `k` listed claims have been visited. */
  ghost function SweptUpTo(
    cfg: Settings, c: Cluster, active: set<Hash>, listing: seq<Name>, now: int, f: Faults, k: nat): Cluster
    requires k <= |listing|
  {
    c.(pvcs := map n | n in c.pvcs && !(Expired(cfg, c.pvcs[n], active, now) && n in listing[..k]
                                        && On(DeletePvc, n) !in f) :: c.pvcs[n])
  }

  lemma NothingSwept(cfg: Settings, c: Cluster, active: set<Hash>, listing: seq<Name>, now: int, f: Faults)
    ensures SweptUpTo(cfg, c, active, listing, now, f, 0) == c
  {
  }

  lemma OneMoreSwept(cfg: Settings, c: Cluster, active: set<Hash>, listing: seq<Name>, now: int, f: Faults, k: nat)
    requires k < |listing|
    ensures var d := SweptUpTo(cfg, c, active, listing, now, f, k);
            SweptUpTo(cfg, c, active, listing, now, f, k + 1)
            == if listing[k] in c.pvcs && Expired(cfg, c.pvcs[listing[k]], active, now)
               then Swallow(RemovePvc(d, listing[k], f), d) else d
  {
    hide Expired;
    assert listing[..k + 1] == listing[..k] + [listing[k]];
  }

  lemma SweepIsCutOff(cfg: Settings, c: Cluster, active: set<Hash>, listing: seq<Name>, now: int, f: Faults, k: nat)
    requires SweepRuns(cfg, f) && k < |listing| && Uncut(c, active, listing, k)
    requires listing[k] in c.pvcs && CutsOff(c.pvcs[listing[k]], active)
    ensures SweptUpTo(cfg, c, active, listing, now, f, k) == CleanupExpired(cfg, c, active, listing, now, f)
  {
    forall n | n in c.pvcs && Expired(cfg, c.pvcs[n], active, now)
      ensures n in listing[..k] <==> Reaches(c, active, listing, n)
    {
      if n in listing[..k] {
        var i :| 0 <= i < k && listing[i] == n;
        assert Uncut(c, active, listing, i);
      }
      if Reaches(c, active, listing, n) {
        var i :| 0 <= i < |listing| && listing[i] == n && Uncut(c, active, listing, i);
        assert i < k;
        assert listing[..k][i] == n;
      }
    }
  }

  lemma WholeListSwept(cfg: Settings, c: Cluster, active: set<Hash>, listing: seq<Name>, now: int, f: Faults)
    requires SweepRuns(cfg, f) && Uncut(c, active, listing, |listing|)
    ensures SweptUpTo(cfg, c, active, listing, now, f, |listing|) == CleanupExpired(cfg, c, active, listing, now, f)
  {
    hide Expired;
    assert listing[..|listing|] == listing;
    forall n ensures n in listing <==> Reaches(c, active, listing, n) {
      if n in listing {
        var i :| 0 <= i < |listing| && listing[i] == n;
        assert Uncut(c, active, listing, i);
      }
    }
  }

  /** A sweep removes exactly the expired claims it reaches, and never one of an active user. */
  lemma SweepRemovesExactly(cfg: Settings, c: Cluster, active: set<Hash>, listing: seq<Name>, now: int, n: Name)
    requires SweepRuns(cfg, NO_FAULTS) && n in c.pvcs
    ensures var d := CleanupExpired(cfg, c, active, listing, now, NO_FAULTS);
            && (n !in d.pvcs <==> Expired(cfg, c.pvcs[n], active, now) && Reaches(c, active, listing, n))
            && (c.pvcs[n].user.Some? && c.pvcs[n].user.value in active ==> n in d.pvcs)
  {
  }

  /** How a sweep treats each claim `n` it reaches, whatever calls fail. Only claims of users are swept, never
      the shared one. The age counts from the stamp, and only without any annotation from the creation;
      a claim whose annotation is no plain time, or with neither, is left alone. */
  lemma SweepByAge(cfg: Settings, c: Cluster, active: set<Hash>, listing: seq<Name>, now: int, f: Faults, n: Name)
    requires n in c.pvcs
    ensures var p := c.pvcs[n];
            var d := CleanupExpired(cfg, c, active, listing, now, f);
            && d == c.(pvcs := d.pvcs) && (n in d.pvcs ==> d.pvcs[n] == p)
            && (n !in d.pvcs <==>
                  && cfg.mode == PerUser && cfg.retainPvc && cfg.pvcTtl > 0
                  && ListPvcs !in f && On(DeletePvc, n) !in f && Reaches(c, active, listing, n)
                  && p.kind == UserClaim && (p.user.None? || p.user.value !in active)
                  && match p.lastActive
                     case Stamp(t) => now > t + cfg.pvcTtl * SECOND
                     case Missing => p.created.Some? && now > p.created.value + cfg.pvcTtl * SECOND
                     case _ => false)
  {
  }

  /** The first unattended claim of a user whose annotation carries a UTC offset cuts the sweep off: claims
      listed only after it survive, and the sweep does reach that far. */
  lemma OffsetCutsSweepOff(c: Cluster, active: set<Hash>, listing: seq<Name>, k: nat, n: Name)
    requires k < |listing| && listing[k] in c.pvcs
    requires var p := c.pvcs[listing[k]];
             p.kind == UserClaim && (p.user.None? || p.user.value !in active) && p.lastActive.Zoned?
    requires forall j :: 0 <= j < k && listing[j] in c.pvcs ==>
               var p := c.pvcs[listing[j]];
               p.kind == SharedClaim || (p.user.Some? && p.user.value in active) || !p.lastActive.Zoned?
    ensures Reaches(c, active, listing, n) <==> n in listing[..k + 1]
  {
    assert Uncut(c, active, listing, k);
    if n in listing[..k + 1] {
      var i :| 0 <= i <= k && listing[i] == n;
      assert Uncut(c, active, listing, i);
    }
    if Reaches(c, active, listing, n) {
      var i :| 0 <= i < |listing| && listing[i] == n && Uncut(c, active, listing, i);
      assert i <= k;
      assert listing[..k + 1][i] == n;
    }
  }

  /** Without annotations that carry a UTC offset a sweep reaches every listed claim. */
  lemma NothingCutsOff(c: Cluster, active: set<Hash>, listing: seq<Name>, n: Name)
    requires n in listing && forall m :: m in c.pvcs ==> !c.pvcs[m].lastActive.Zoned?
    ensures Reaches(c, active, listing, n)
  {
    var k :| 0 <= k < |listing| && listing[k] == n;
    assert Uncut(c, active, listing, k);
  }
}
