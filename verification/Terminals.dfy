/** Settings and the record the proxy keeps of each terminal. */
module Terminals {
  import opened Basics
  import opened Names
  import opened Base64

  datatype StorageMode = NoStorage | PerUser | Shared | SharedRwo

  /** Times are in seconds, as configured. */
  datatype Settings = Settings(
    mode: StorageMode,
    retainPvc: bool,
    pvcTtl: int,
    maxPods: int,
    idleTimeout: int,
    app: string,
    managedBy: string)

  datatype PodState = Creating | Running | Failed | Terminated

  datatype TerminalPod = TerminalPod(
    userId: string,
    hash: Hash,
    podName: Name,
    serviceName: Name,
    secretName: Name,
    pvcName: Option<Name>,
    apiKey: ApiKey,
    state: PodState,
    lastActiveAt: int,
    podIp: Option<string>)
  {
    /** The names are those derived from the hash. */
    ghost predicate Named(h: Hash) {
      && hash == h
      && podName == TerminalName(h) && serviceName == TerminalName(h) && secretName == SecretName(h)
      && (pvcName.Some? ==> pvcName.value == UserPvcName(h))
    }
  }

  /** `TerminalPod.create`, followed by the removal of the claim name when there is no storage. */
  function Create(cfg: Settings, userId: string, h: Hash, key: ApiKey, now: int): (t: TerminalPod)
    ensures t.Named(h) && t.userId == userId && t.apiKey == key && t.lastActiveAt == now
    ensures t.state == Creating && t.podIp == None && (t.pvcName == None <==> cfg.mode == NoStorage)
  {
    TerminalPod(userId, h, TerminalName(h), TerminalName(h), SecretName(h),
                if cfg.mode == NoStorage then None else Some(UserPvcName(h)),
                key, Creating, now, None)
  }
}
