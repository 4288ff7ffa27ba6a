/** The cluster as the proxy sees it: named objects, and API calls that may be made to fail. */
module ClusterModel {
  import opened Basics
  import opened Names

  datatype Labels = Labels(app: string, managedBy: string, user: Option<Hash>)

  datatype Phase = Pending | Running | Succeeded | Failed | Unknown

  /** `keyRef` is the secret from which the container takes its API key. */
  datatype Pod = Pod(
    labels: Labels,
    claim: Option<Name>,
    subPath: Option<string>,
    keyRef: Name,
    node: Option<string>,
    phase: Phase,
    ip: Option<string>)

  datatype Service = Service(app: string, user: Hash)
  {
    predicate Selects(p: Pod) {
      p.labels.app == app && p.labels.user == Some(user)
    }
  }

  /** The `api-key` entry, if the secret has one. */
  datatype Secret = Secret(apiKey: Option<string>)

  /** The last-active annotation: absent, not a time at all, a time with a UTC offset (never written by
      the proxy), or a time as the proxy writes it. */
  datatype Annotation = Missing | Garbled | Zoned | Stamp(time: int)

  datatype PvcKind = UserClaim | SharedClaim

  datatype Pvc = Pvc(kind: PvcKind, user: Option<Hash>, lastActive: Annotation, created: Option<int>)

  datatype Cluster = Cluster(
    pods: map<Name, Pod>,
    services: map<Name, Service>,
    secrets: map<Name, Secret>,
    pvcs: map<Name, Pvc>)

  datatype Verb =
    | GetPod | CreatePod | DeletePod
    | CreateService | DeleteService
    | GetSecret | CreateSecret | DeleteSecret
    | GetPvc | CreatePvc | DeletePvc | AnnotatePvc

  datatype Call = On(verb: Verb, name: Name) | ListPods | ListPvcs

  /** The calls that raise during one atomic step, after the client's own retries. */
  type Faults = set<Call>

  const NO_FAULTS: Faults := {}

  // Each mutating call yields the new cluster, or None when it raises. Creating an existing name
  // raises (a conflict); deleting a missing name is a no-op; annotating a missing claim raises.

  function AddPod(c: Cluster, n: Name, p: Pod, f: Faults): Option<Cluster> {
    if On(CreatePod, n) in f || n in c.pods then None else Some(c.(pods := c.pods[n := p]))
  }

  function AddService(c: Cluster, n: Name, s: Service, f: Faults): Option<Cluster> {
    if On(CreateService, n) in f || n in c.services then None else Some(c.(services := c.services[n := s]))
  }

  function AddSecret(c: Cluster, n: Name, s: Secret, f: Faults): Option<Cluster> {
    if On(CreateSecret, n) in f || n in c.secrets then None else Some(c.(secrets := c.secrets[n := s]))
  }

  function AddPvc(c: Cluster, n: Name, p: Pvc, f: Faults): Option<Cluster> {
    if On(CreatePvc, n) in f || n in c.pvcs then None else Some(c.(pvcs := c.pvcs[n := p]))
  }

  function RemovePod(c: Cluster, n: Name, f: Faults): Option<Cluster> {
    if On(DeletePod, n) in f then None else Some(c.(pods := c.pods - {n}))
  }

  function RemoveService(c: Cluster, n: Name, f: Faults): Option<Cluster> {
    if On(DeleteService, n) in f then None else Some(c.(services := c.services - {n}))
  }

  function RemoveSecret(c: Cluster, n: Name, f: Faults): Option<Cluster> {
    if On(DeleteSecret, n) in f then None else Some(c.(secrets := c.secrets - {n}))
  }

  function RemovePvc(c: Cluster, n: Name, f: Faults): Option<Cluster> {
    if On(DeletePvc, n) in f then None else Some(c.(pvcs := c.pvcs - {n}))
  }

  function Annotate(c: Cluster, n: Name, time: int, f: Faults): Option<Cluster> {
    if On(AnnotatePvc, n) in f || n !in c.pvcs then None
    else Some(c.(pvcs := c.pvcs[n := c.pvcs[n].(lastActive := Stamp(time))]))
  }

  /** The caller catches the exception and carries on. */
  function Swallow(attempt: Option<Cluster>, c: Cluster): Cluster {
    if attempt.Some? then attempt.value else c
  }

  /** The pods a label query returns, in the order `order` the API server happens to use. */
  function ListedPods(c: Cluster, app: string, managedBy: string, order: seq<Name>): seq<Name> {
    if order == [] then []
    else
      var n := order[|order| - 1];
      ListedPods(c, app, managedBy, order[..|order| - 1])
      + if n in c.pods && c.pods[n].labels.app == app && c.pods[n].labels.managedBy == managedBy then [n] else []
  }

  lemma {:induction false} ListedPodsMembers(c: Cluster, app: string, managedBy: string, order: seq<Name>)
    ensures forall n :: n in ListedPods(c, app, managedBy, order)
                        <==> n in order && n in c.pods
                             && c.pods[n].labels.app == app && c.pods[n].labels.managedBy == managedBy
    ensures NoDuplicates(order) ==> NoDuplicates(ListedPods(c, app, managedBy, order))
  {
    if order == [] {
    } else {
      ListedPodsMembers(c, app, managedBy, order[..|order| - 1]);
      assert NoDuplicates(order) ==> order[|order| - 1] !in order[..|order| - 1];
    }
  }

  /** The Kubernetes client. `faults` is chosen by the environment before each atomic step. */
  class K8sClient {
    var cluster: Cluster
    var faults: Faults

    constructor (cluster: Cluster)
      ensures this.cluster == cluster && faults == NO_FAULTS
    {
      this.cluster, faults := cluster, NO_FAULTS;
    }

    method CreatePod(n: Name, p: Pod) returns (ok: bool)
      modifies this`cluster
      ensures ok == AddPod(old(cluster), n, p, faults).Some?
      ensures cluster == Swallow(AddPod(old(cluster), n, p, faults), old(cluster))
    {
      ok := On(Verb.CreatePod, n) !in faults && n !in cluster.pods;
      if ok {
        cluster := cluster.(pods := cluster.pods[n := p]);
      }
    }

    method CreateService(n: Name, s: Service) returns (ok: bool)
      modifies this`cluster
      ensures ok == AddService(old(cluster), n, s, faults).Some?
      ensures cluster == Swallow(AddService(old(cluster), n, s, faults), old(cluster))
    {
      ok := On(Verb.CreateService, n) !in faults && n !in cluster.services;
      if ok {
        cluster := cluster.(services := cluster.services[n := s]);
      }
    }

    method CreateSecret(n: Name, s: Secret) returns (ok: bool)
      modifies this`cluster
      ensures ok == AddSecret(old(cluster), n, s, faults).Some?
      ensures cluster == Swallow(AddSecret(old(cluster), n, s, faults), old(cluster))
    {
      ok := On(Verb.CreateSecret, n) !in faults && n !in cluster.secrets;
      if ok {
        cluster := cluster.(secrets := cluster.secrets[n := s]);
      }
    }

    method CreatePvc(n: Name, p: Pvc) returns (ok: bool)
      modifies this`cluster
      ensures ok == AddPvc(old(cluster), n, p, faults).Some?
      ensures cluster == Swallow(AddPvc(old(cluster), n, p, faults), old(cluster))
    {
      ok := On(Verb.CreatePvc, n) !in faults && n !in cluster.pvcs;
      if ok {
        cluster := cluster.(pvcs := cluster.pvcs[n := p]);
      }
    }

    method DeletePod(n: Name) returns (ok: bool)
      modifies this`cluster
      ensures ok == RemovePod(old(cluster), n, faults).Some?
      ensures cluster == Swallow(RemovePod(old(cluster), n, faults), old(cluster))
    {
      ok := On(Verb.DeletePod, n) !in faults;
      if ok {
        cluster := cluster.(pods := cluster.pods - {n});
      }
    }

    method DeleteService(n: Name) returns (ok: bool)
      modifies this`cluster
      ensures ok == RemoveService(old(cluster), n, faults).Some?
      ensures cluster == Swallow(RemoveService(old(cluster), n, faults), old(cluster))
    {
      ok := On(Verb.DeleteService, n) !in faults;
      if ok {
        cluster := cluster.(services := cluster.services - {n});
      }
    }

    method DeleteSecret(n: Name) returns (ok: bool)
      modifies this`cluster
      ensures ok == RemoveSecret(old(cluster), n, faults).Some?
      ensures cluster == Swallow(RemoveSecret(old(cluster), n, faults), old(cluster))
    {
      ok := On(Verb.DeleteSecret, n) !in faults;
      if ok {
        cluster := cluster.(secrets := cluster.secrets - {n});
      }
    }

    method DeletePvc(n: Name) returns (ok: bool)
      modifies this`cluster
      ensures ok == RemovePvc(old(cluster), n, faults).Some?
      ensures cluster == Swallow(RemovePvc(old(cluster), n, faults), old(cluster))
    {
      ok := On(Verb.DeletePvc, n) !in faults;
      if ok {
        cluster := cluster.(pvcs := cluster.pvcs - {n});
      }
    }

    method AnnotatePvc(n: Name, time: int) returns (ok: bool)
      modifies this`cluster
      ensures ok == Annotate(old(cluster), n, time, faults).Some?
      ensures cluster == Swallow(Annotate(old(cluster), n, time, faults), old(cluster))
    {
      ok := On(Verb.AnnotatePvc, n) !in faults && n in cluster.pvcs;
      if ok {
        cluster := cluster.(pvcs := cluster.pvcs[n := cluster.pvcs[n].(lastActive := Stamp(time))]);
      }
    }

    /** Label query over the pods; `order` is the order in which the API server lists names. */
    method ListTerminalPods(app: string, managedBy: string, order: seq<Name>) returns (ok: bool, items: seq<Name>)
      ensures ok == (ListPods !in faults)
      ensures ok ==> items == ListedPods(cluster, app, managedBy, order)
      ensures forall n :: n in items ==> n in cluster.pods
    {
      items := [];
      if ListPods in faults {
        return false, [];
      }
      for i := 0 to |order|
        invariant items == ListedPods(cluster, app, managedBy, order[..i])
        invariant forall n :: n in items ==> n in cluster.pods
      {
        var n := order[i];
        assert order[..i + 1][..i] == order[..i];
        if n in cluster.pods && cluster.pods[n].labels.app == app && cluster.pods[n].labels.managedBy == managedBy {
          items := items + [n];
        }
      }
      assert order[..|order|] == order;
      ok := true;
    }

    /** The node of the first listed pod that mounts the claim; its node name may still be unset. */
    method GetSharedPvcNode(claim: Name, app: string, managedBy: string, order: seq<Name>)
      returns (ok: bool, node: Option<string>)
      ensures ok == (ListPods !in faults)
      ensures ok ==> node == FirstMountNode(cluster, claim, ListedPods(cluster, app, managedBy, order))
    {
      var items;
      ok, items := ListTerminalPods(app, managedBy, order);
      node := None;
      if ok {
        for i := 0 to |items|
          invariant FirstMountNode(cluster, claim, items[..i]) == None
          invariant forall k :: 0 <= k < i ==> items[k] in cluster.pods && cluster.pods[items[k]].claim != Some(claim)
        {
          if cluster.pods[items[i]].claim == Some(claim) {
            FirstMountSkips(cluster, claim, items, i);
            return true, cluster.pods[items[i]].node;
          }
          FirstMountSkips(cluster, claim, items[..i + 1], i + 1);
        }
        assert items[..|items|] == items;
      }
    }
  }

  function FirstMountNode(c: Cluster, claim: Name, items: seq<Name>): Option<string> {
    if items == [] then None
    else if items[0] in c.pods && c.pods[items[0]].claim == Some(claim) then c.pods[items[0]].node
    else FirstMountNode(c, claim, items[1..])
  }

  lemma {:induction false} FirstMountSkips(c: Cluster, claim: Name, items: seq<Name>, i: nat)
    requires i <= |items|
    requires forall k :: 0 <= k < i ==> !(items[k] in c.pods && c.pods[items[k]].claim == Some(claim))
    ensures FirstMountNode(c, claim, items) == FirstMountNode(c, claim, items[i..])
    decreases i
  {
    if i == 0 {
    } else {
      FirstMountSkips(c, claim, items[1..], i - 1);
      assert items[1..][i - 1..] == items[i..];
    }
  }

  predicate Mounts(c: Cluster, claim: Name, n: Name) {
    n in c.pods && c.pods[n].claim == Some(claim)
  }

  /** The search answers the node of the first listed pod that mounts the claim, set or unset, and no node
      if there is no such pod. */
  lemma {:induction false} FirstMountIsFirst(c: Cluster, claim: Name, items: seq<Name>, k: nat)
    requires k <= |items| && forall j :: 0 <= j < k ==> !Mounts(c, claim, items[j])
    ensures k == |items| ==> FirstMountNode(c, claim, items) == None
    ensures k < |items| && Mounts(c, claim, items[k]) ==> FirstMountNode(c, claim, items) == c.pods[items[k]].node
    decreases k
  {
    if k == 0 {
    } else {
      FirstMountIsFirst(c, claim, items[1..], k - 1);
    }
  }

  /** A listing keeps the order of the API server. */
  lemma {:induction false} ListedPodsInOrder(
    c: Cluster, app: string, managedBy: string, order: seq<Name>, i: nat, j: nat)
    requires i < j < |ListedPods(c, app, managedBy, order)|
    ensures exists a, b :: 0 <= a < b < |order| && order[a] == ListedPods(c, app, managedBy, order)[i]
                           && order[b] == ListedPods(c, app, managedBy, order)[j]
  {
    var before := order[..|order| - 1];
    var items := ListedPods(c, app, managedBy, before);
    if j < |items| {
      ListedPodsInOrder(c, app, managedBy, before, i, j);
    } else {
      ListedPodsMembers(c, app, managedBy, before);
      assert items[i] in before;
      var a :| 0 <= a < |before| && before[a] == items[i];
      assert order[a] == items[i] && order[|order| - 1] == ListedPods(c, app, managedBy, order)[j];
    }
  }
}
