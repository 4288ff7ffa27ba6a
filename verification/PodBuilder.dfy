/** Manifests: which claim, sub-path and node a terminal gets, and the labels that tie its objects together. */
module PodBuilder {
  import opened Basics
  import opened Names
  import opened Base64
  import opened Terminals
  import opened ClusterModel

  datatype Manifests = Manifests(pod: Pod, secret: Secret, service: Service)

  function UserLabels(cfg: Settings, h: Hash): Labels {
    Labels(cfg.app, cfg.managedBy, Some(h))
  }

  function BuildSecret(key: ApiKey): Secret {
    Secret(Some(EncodeKey(key)))
  }

  function BuildService(cfg: Settings, t: TerminalPod): Service {
    Service(cfg.app, t.hash)
  }

  /** None stands for the ValueError raised when per-user storage has no claim name. */
  function BuildPodForUser(cfg: Settings, t: TerminalPod, sharedNode: Option<string>): Option<Manifests> {
    if cfg.mode == PerUser && t.pvcName.None? then None
    else
      var claim := match cfg.mode
        case PerUser => t.pvcName
        case Shared => Some(SharedPvcName)
        case SharedRwo => Some(SharedPvcName)
        case NoStorage => None;
      var subPath := if cfg.mode == Shared || cfg.mode == SharedRwo then Some(t.hash) else None;
      var node := if cfg.mode == SharedRwo && Truthy(sharedNode) then sharedNode else None;
      Some(Manifests(Pod(UserLabels(cfg, t.hash), claim, subPath, t.secretName, node, Pending, None),
                     BuildSecret(t.apiKey),
                     BuildService(cfg, t)))
  }

  /** `p` has the shape this proxy gives to the pod of user `h`, wherever and however it runs. */
  ghost predicate ShapedFor(cfg: Settings, h: Hash, p: Pod) {
    && p.labels == UserLabels(cfg, h)
    && p.keyRef == SecretName(h)
    && p.claim == (match cfg.mode
                   case PerUser => Some(UserPvcName(h))
                   case Shared => Some(SharedPvcName)
                   case SharedRwo => Some(SharedPvcName)
                   case NoStorage => None)
    && p.subPath == if cfg.mode == Shared || cfg.mode == SharedRwo then Some(h) else None
  }

  /** Two different users never get the same directory of the same claim. */
  lemma StorageIsIsolated(cfg: Settings, g: Hash, h: Hash, p: Pod, q: Pod)
    requires g != h && ShapedFor(cfg, g, p) && ShapedFor(cfg, h, q) && p.claim.Some?
    ensures (p.claim, p.subPath) != (q.claim, q.subPath)
  {
  }

  /** The built service selects the built pod, the pod reads the built secret, and that secret decodes to
      the terminal's key. The pod is pinned to the shared node exactly in shared-RWO mode, if there is one. */
  lemma ManifestsFitTogether(cfg: Settings, t: TerminalPod, sharedNode: Option<string>)
    requires t.Named(t.hash) && BuildPodForUser(cfg, t, sharedNode).Some?
    ensures var m := BuildPodForUser(cfg, t, sharedNode).value;
            && ShapedFor(cfg, t.hash, m.pod) && m.service.Selects(m.pod)
            && m.secret.apiKey.Some? && DecodeKey(m.secret.apiKey.value) == Some(t.apiKey)
            && m.pod.phase == Pending && m.pod.ip.None?
            && m.pod.node == if cfg.mode == SharedRwo && Truthy(sharedNode) then sharedNode else None
  {
    KeyRoundTrip(t.apiKey);
  }
}
