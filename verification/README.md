# A verified model of the terminal proxy

The proxy gives each user a terminal pod in a Kubernetes namespace. It keeps a bounded dictionary of
terminals that must agree with the pods, services, secrets and persistent volume claims (PVCs) of
the cluster, while requests, three periodic sweeps, the environment and restarts interleave. This
project models that machinery and the components around it in Dafny, and proves what holds in every
reachable state.

| file | what it models |
|---|---|
| `Cluster.dfy`, `Terminals.dfy`, `PodBuilder.dfy`, `Base64.dfy`, `Names.dfy` | the idealised cluster and its API, settings, terminals, manifests, key encoding, object names |
| `Storage.dfy`, `Lifecycle.dfy` | the storage manager, and the specification of each atomic step of the pod manager |
| `PodManager.dfy`, `Readiness.dfy`, `Waiting.dfy` | the pod manager as a class whose methods are proved against that specification, its polling loop, and the loop's place in a run |
| `Runs.dfy` | all interleavings of the steps |
| `Effects.dfy`, `Tracking.dfy`, `Recency.dfy`, `Provenance.dfy` | what each operation does call by call, and what holds in all runs, under any API fault, cancellation and cluster change |
| `Agreement.dfy`, `Recovery.dfy` | what holds in fault-free runs |
| `Interruptions.dfy`, `CoLocation.dfy`, `Retention.dfy`, `Claims.dfy` | what holds in calm runs, and what a cut-off wait leaves behind |
| `Witnesses.dfy` | short runs that reach each situation in which the code falls short |
| `CircuitBreakers.dfy`, `BreakerRegistry.dfy` | the circuit breaker, its registry, and concurrent traffic |
| `RateLimiting.dfy`, `Metrics.dfy` | the sliding-window rate limiter, the latency window, percentiles |

## How the system is seen

- Everything runs on one event loop, so code between two suspensions is one atomic step. A creation
  suspends only in the readiness wait. It has a first half (`Ask`) and a second half (`Answer`), or
  `Abandon` when an exception or a cancellation ends the wait. The creation lock keeps other
  requests out; the sweeps take no lock and may run during the wait.
- A *run* is any sequence of such steps. In every run each step has its own set of API calls that
  raise (without taking effect), and the environment may replace the cluster by anything. A
  *fault-free* run has no raising call and no abandoned wait, complete list answers, and an
  environment that changes only pods: phases, addresses, a node for an unscheduled pod, and deleted
  pods. A Running pod has a node. A *calm* run is fault-free except that waits may be cut off.
- The cluster is atomic and holds the proxy's objects only. Creating an existing name raises,
  deleting a missing one does nothing, reading a missing one yields nothing.
- Clocks, fresh API keys, dictionary and list orders are parameters of each step. A step reads the
  clock once; times are whole microseconds. The hash of a user is an arbitrary 12-digit hexadecimal
  string, and everything is stated per hash.
- Objects are keyed by structured names. In every state of every fault-free run two names in use that
  are the same string are the same name (`NamesIdentifyObjects`), so this loses nothing.
- The breaker results assume a threshold of at least 1, a positive recovery timeout, and for those
  about time a non-decreasing positive clock.

## Where the code does not do what one might expect

The lemmas of `Witnesses.dfy` named below give short runs, from a fresh process over an empty namespace,
that end in these situations.

- Agreement with the cluster can be lost by a restart. If a live user's pod object is deleted and the
  proxy restarts before its health sweep notices, the user's service and secret have no owner
  (`KillThenCrashOrphans`, `KilledPodLocksOut`). Nothing ever removes them, and every later request of
  that user fails with a conflict (`OrphanIsLockedOut`). A fault-free run is free of such pairs if and
  only if each of its restarts found the pod of every service (`NoOrphansIff`), and a request fails
  when it starts if and only if its user has such a pair (`NoCreationConflicts`).
- It can also be lost by a cancelled request. A wait that is cut off strands its user: the objects
  stay, nobody tracks them, and each request of that user fails when it starts, until a restart. The
  restart frees the user if and only if the pod object still exists (`StrandedUsers`,
  `CutOffUserWaitsForRestart`, `CutOffLocksOutUntilRestart`, `CutOffLocksOutForGood`). The left-over pod
  counts against no limit, so each cut-off wait may add one pod for good (`CapacityWithCutOffs`,
  `CutOffExceedsLimit`).
- In shared-RWO mode all terminal pods are meant to be on one node, as the proxy's own README says.
  They are in every fault-free run, but a cut-off wait can break this: if a creation starts while a pod has no node yet,
  neither pod is pinned. Until that happens the pods are together (`CoLocatedUnlessExposed`), and once
  it has, the scheduler may place them apart (`ExposureBreaksCoLocation`, `CutOffScattersPods`).
- The retention time is documented as counting from the pod's deletion
  (`terminal_proxy/config.py:95-99`). A failed start and a start-up teardown delete the pod without
  stamping the PVC. After them the full time is granted if and only if no time passed since the
  stamp (`FailedStartGrantsGraceIff`, `RestartGrantsGraceIff`, `FailedStartLosesClaim`,
  `RestartLosesClaim`). Deletions by the sweeps and by eviction do stamp it
  (`ManagerDeletionGrantsGrace`).
- The retention sweep knows only tracked users. It deletes a PVC that a pod mounts if and only if it
  reaches the expired PVC of an existing pod whose user is not tracked (`SweepSparesMountedIff`,
  `MountedClaimsExist`): a pod that has been starting for longer than the TTL, or one that a cut-off
  wait left over (`OvertakesIff`, `OvertakesOnlyStarting`, `SweepOvertakesStartingPod`).
- The retention sweep stops at the first unattended PVC whose annotation is a time with a UTC offset:
  the subtraction raises outside the inner `try` (`terminal_proxy/storage.py:163-168`). The proxy never
  writes such a time, so sweeps reach everything unless somebody else does (`SweepsReachEverything`).
- In the two shared modes a new terminal carries the name of a per-user PVC that does not exist.
  A restart drops it, so there, and only there, the PVC name does not survive (`CrashRecovery`). The
  user id does not survive a restart either; it becomes the hash.
- A breaker refuses all requests until an outcome arrives if and only if it is HALF_OPEN with every slot
  taken (`RefusesForeverIff`). That state is reachable under every policy (`BlockingIsReachable`), so
  probes that never report block it forever. Any late outcome ends it (`OutcomeUnblocks`).

## Model

| member | source | states |
|---|---|---|
| Tracking.TrackedMeansRunning | terminal_proxy/pod_manager.py:109-142 | At every yield point of every run, under any faults: each key equals its terminal's hash, each tracked terminal is RUNNING, and the user being created is not tracked |
| Tracking.RequestsAnswerRunning | terminal_proxy/pod_manager.py:113-142 | In every run a tracked user is answered at once with a RUNNING terminal (so nothing is recycled), and a finished creation inserts a RUNNING terminal under a free key without touching another entry |
| Tracking.HealthSweepEffect | terminal_proxy/pod_manager.py:276-298 | Under any faults a health sweep keeps exactly the terminals whose pod could not be read, or exists and is neither Failed nor Unknown; these change only in the address, which becomes the pod's exactly if the pod was read and is Running |
| Tracking.AskUnfolds | terminal_proxy/pod_manager.py:116-139 | In reachable states the recycle branch is dead: a request is a hit or an eviction followed by a creation |
| Effects.DropTriesEverything | terminal_proxy/pod_manager.py:208-241 | Under any faults each of a deleted terminal's three objects is gone unless its own deletion raised; a per-user claim is stamped or deleted, unless that call raised; nothing else is touched |
| Effects.HitEffect | terminal_proxy/pod_manager.py:116-120 | Under any faults a hit succeeds, renews the terminal's activity, stamps its claim unless that call raises, and changes nothing else |
| Effects.UnreadyTerminalIsReplaced | terminal_proxy/pod_manager.py:122-142 | A tracked terminal that is not RUNNING is never answered: unless its pod deletion raises, which ends the request, it is untracked and a creation is attempted |
| Effects.RecycleEffect | terminal_proxy/pod_manager.py:122-129 | Recycling deletes the pod only, stamps or deletes the claim, and keeps the terminal exactly if deleting the pod raises |
| Effects.OldestIsFirst | terminal_proxy/pod_manager.py:202 | Among the least recently active terminals the first in the dictionary's order is evicted |
| Effects.StartEffect | terminal_proxy/pod_manager.py:144-196 | A creation raises exactly if a call on its way raises or an object of that name exists; secret, pod and service made until then stay, and nothing else changes among them |
| Effects.PrepareEffect | terminal_proxy/storage.py:27-106 | When preparing the storage raises, per mode and call, and that it touches claims and the remembered node only |
| Effects.PrepareClaims | terminal_proxy/storage.py:27-106 | The claims afterwards: the shared one or the user's own is added if missing, the user's own stamped otherwise, subject to the calls that raise |
| Effects.RememberedNodeIsUsed | terminal_proxy/storage.py:61-70 | In shared-RWO mode a creation keeps the remembered node and pins its pod to it, whatever pods exist and even if they cannot be listed |
| Effects.SearchedNodeIsRemembered | terminal_proxy/storage.py:69-70 | Without one it remembers the node of the first listed pod that mounts the shared claim, and pins its pod to it if it is set |
| Effects.RememberedNodeStays | terminal_proxy/storage.py:61-70 | In every run, whatever fails, a remembered node stays until the next restart, and every creation in between pins its pod to it |
| Effects.FinishEffect | terminal_proxy/pod_manager.py:179-196 | A wait that ends ready with an address tracks the terminal there, RUNNING; any other end tracks nobody and deletes service, pod and secret until a deletion raises |
| Effects.UnlabelledPodIsSkipped | terminal_proxy/pod_manager.py:62-64 | Start-up skips a pod without a user label |
| Effects.RunningPodIsAdopted | terminal_proxy/pod_manager.py:66-85 | Start-up adopts a Running pod with the key in its secret, or with a fresh one if there is none, and gives up if the secret cannot be read or decoded |
| Effects.OtherPodIsRemoved | terminal_proxy/pod_manager.py:87-93 | Start-up removes service, pod and secret of any other pod until a deletion raises, which ends it |
| Effects.AdoptionByPosition | terminal_proxy/pod_manager.py:61-85 | When start-up completes, a user's last listed pod, if Running, gives the terminal its name, address and clock reading, and the fresh key made for just this pod if no secret has one |
| Effects.UnlistedPodsAreIgnored | terminal_proxy/pod_manager.py:59-60 | If the pods cannot be listed, start-up tracks nobody and changes nothing |
| Tracking.CapacityIsKept | terminal_proxy/pod_manager.py:131-142 | From the end of start-up to the next crash, under any faults, tracked plus starting terminals never exceed max(1, max_concurrent_pods, number adopted) |
| Recovery.ClusterCapacity | terminal_proxy/pod_manager.py:58-142 | In every fault-free run, restarts included, the pods in the cluster are at most the known terminals, which are at most max(1, max_concurrent_pods, number known at the start) |
| Recovery.ClusterCapacityFromEmpty | terminal_proxy/pod_manager.py:131-142 | Over an empty namespace the last term falls away |
| Recovery.AdoptedPodsCount | terminal_proxy/pod_manager.py:58-85 | After a restart the number known is the number of pods adopted, which is the number of pods |
| Interruptions.CapacityWithCutOffs | terminal_proxy/pod_manager.py:131-142 | In every calm run the pods are at most the known terminals plus the left-over pods, and both together exceed the bound by at most the pods left over at the start and one per cut-off wait, restarts included |
| Interruptions.LeftOverStep | terminal_proxy/pod_manager.py:170-196 | A cut-off wait leaves its pod over, a restart leaves none, and no other step makes a new left-over pod |
| Recency.DictionaryRefinesRecencyList | terminal_proxy/pod_manager.py:109-142 | On a strictly increasing clock and under any faults the dictionary refines a recency list: hit to the back, full miss drops the head, idle sweep drops the idle prefix, finished creation is appended |
| Recency.OldestIsHead | terminal_proxy/pod_manager.py:198-206 | The evicted terminal is exactly the head of the recency list, whatever the iteration order |
| Recency.DropIdleMembers | terminal_proxy/pod_manager.py:253-264 | In an increasing list the terminals idle longer than the timeout are exactly the dropped prefix |
| Recency.AppendStep | terminal_proxy/pod_manager.py:139-142 | A finished creation lands at the back even when sweeps ran during its wait |
| Recency.AdoptedListRefines | terminal_proxy/pod_manager.py:58-93 | After start-up, complete or cut off by an exception, the list holds the adopted users in order of adoption |
| Agreement.StartCreationClean | terminal_proxy/pod_manager.py:144-168 | A fault-free creation fails if and only if the user still has a secret, and then changes no pod, service or secret; otherwise it adds the user's three objects and nothing else |
| Agreement.StartedPodHasItsClaim | terminal_proxy/pod_manager.py:147-164 | A pod is created only when the claim it mounts exists; it mounts one in every mode but none |
| Agreement.DropKeepsAgreement | terminal_proxy/pod_manager.py:208-229 | Deleting a terminal removes exactly that user and that user's three objects, and keeps agreement |
| Agreement.AgreementStep | terminal_proxy/pod_manager.py:131-191 | Every fault-free step but a crash keeps agreement and orphans nothing, and only the environment can take away a live user's pod |
| Recovery.ClusterAgreement | terminal_proxy/pod_manager.py:58-191 | In every fault-free run, killed pods and restarts included: pods belong to live users and have their shape; services and secrets are paired; each live user has the pair, with the terminal's key |
| Recovery.NoOrphansIff | terminal_proxy/pod_manager.py:58-191 | In every fault-free run, killed pods and restarts included, no service or secret is without a live user if and only if each restart so far found the pod of every service |
| Recovery.ObjectsAreExact | terminal_proxy/pod_manager.py:131-191 | In every fault-free run services and secrets are exactly those of tracked plus starting users if and only if each restart so far found the pod of every service; pods always belong to such users |
| Recovery.UndisturbedRunsAreExact | terminal_proxy/pod_manager.py:131-191 | In particular they are exact in runs without a crash and in runs without killed pods; in the latter every such user also has a pod |
| Recovery.NoCreationConflicts | terminal_proxy/pod_manager.py:161-168 | In every fault-free run a request fails when it starts if and only if its user's service and secret are ownerless; while each restart found the pod of every service, no secret, pod or service creation meets an existing name |
| Recovery.CrashRecovery | terminal_proxy/pod_manager.py:58-104 | After a crash and restart the tracked users are exactly those with a Running pod, only these pods remain, and each keeps hash, names and API key; the PVC name survives exactly outside the shared modes' meaningless one |
| Recovery.RecoveryRestoresCorrespondence | terminal_proxy/pod_manager.py:58-104 | After a crash at any yield point of any fault-free run, pods are exactly those of the tracked users, each with the key from before; services and secrets are too if and only if every service had its pod before the crash |
| Recovery.RestartLeavesNoOrphansIff | terminal_proxy/pod_manager.py:58-93 | A restart leaves no service or secret without a tracked user if and only if every service had its pod before |
| Recovery.KillThenCrashOrphans | terminal_proxy/pod_manager.py:58-93 | For any live user, deleting the pod object and restarting before a health sweep leaves the user's service and secret ownerless |
| Witnesses.KilledPodLocksOut | terminal_proxy/pod_manager.py:58-93 | For every user a fault-free run in which this happens and the user's next request fails |
| Recovery.OrphanIsLockedOut | terminal_proxy/pod_manager.py:155-161 | From then on every request of that user fails when it starts, in every fault-free continuation, restarts included |
| Interruptions.StrandedUsers | terminal_proxy/pod_manager.py:161-196 | In runs whose waits may be cut off: a cut-off wait strands its user, a restart leaves stranded exactly the users with a secret but no pod, no other step changes who is stranded, and a request fails when it starts if and only if its user is stranded |
| Interruptions.CutOffUserWaitsForRestart | terminal_proxy/pod_manager.py:170-196 | After a cut-off wait every request of its user fails when it starts until a restart, which frees the user if and only if the pod object still exists |
| Witnesses.CutOffLocksOutUntilRestart | terminal_proxy/pod_manager.py:170-196 | A calm run in which a cut-off wait makes the user's next request fail and a restart frees the user |
| Witnesses.CutOffLocksOutForGood | terminal_proxy/pod_manager.py:58-91 | A calm run in which the pod is gone by then, and the restart does not help |
| Witnesses.CutOffExceedsLimit | terminal_proxy/pod_manager.py:131-142 | A calm run with two pods whatever the limit |
| Witnesses.CutOffScattersPods | terminal_proxy/k8s/client.py:294-304 | A calm shared-RWO run that ends with two pods on different nodes |
| Recovery.EmptyNamespaceAgrees | terminal_proxy/pod_manager.py:25-36 | A fresh process over an empty namespace meets the assumptions of all run theorems |
| Recovery.RoutingAgreement | terminal_proxy/k8s/pod_builder.py:210-245 | In every fault-free run a tracked terminal's service selects exactly the terminal's own pod, with its hash, whose key comes from a secret that decodes to the terminal's key, if and only if that pod object exists; it always does if no pod is killed |
| Recovery.PodsNeverShareStorage | terminal_proxy/k8s/pod_builder.py:266-286 | In fault-free runs two pods never mount the same directory of the same claim |
| CoLocation.SharedPodsAreCoLocated | README.md:89-91 | In shared-RWO mode all scheduled pods that mount the shared claim are on one node, in every state of every fault-free run, restarts included; every pod of a tracked user is scheduled, and the starting pod may lack a node only while it is the only pod |
| CoLocation.CoLocatedUnlessExposed | README.md:89-91 | The same in every calm run, up to the first creation that starts while some pod has no node |
| CoLocation.ExposureBreaksCoLocation | terminal_proxy/k8s/client.py:294-304 | Right after such a creation some permitted scheduling places two pods with the shared claim on different nodes |
| CoLocation.ChosenNode | terminal_proxy/storage.py:61-70 | The node given to a new pod is the one on which every existing pod is, and none if the only other pod has none or if there are neither pods nor memory |
| Retention.ClaimsFollowLedger | terminal_proxy/storage.py:80-115 | In calm per-user retain runs each claim is stamped with the later of its user's last get_or_create and last deletion by the manager |
| Retention.SweepRespectsRetention | terminal_proxy/storage.py:128-173 | In every calm run the sweep never deletes a tracked user's claim; it deletes another seen user's claim if and only if it reaches it and more than the TTL has passed since that time; a starting user's claim survives any wait up to the TTL |
| Retention.ClaimsAreKept | terminal_proxy/storage.py:117-131 | With retention on, no step but the sweep (and the environment) deletes a claim, under any faults |
| Retention.TtlZeroKeepsEveryClaim | terminal_proxy/config.py:95-99 | With retention on and TTL 0 no run ever deletes a claim, under any faults |
| Claims.ClaimsChangeExactly | terminal_proxy/pod_manager.py:122-153 | In per-user mode a step of a calm run adds exactly the claim of a user whose creation starts, and removes exactly those of users whose terminals the manager deletes (unless retained) and those the sweep reaches and finds expired |
| Claims.MountedClaimsExist | terminal_proxy/pod_manager.py:147-164 | In every calm run, in every storage and retention setting, every pod keeps its claim throughout if and only if no retention sweep reaches the expired claim of an existing pod of an untracked user |
| Claims.SweepSparesMountedIff | terminal_proxy/storage.py:136-173 | The same for one sweep |
| Claims.OvertakesIff | terminal_proxy/storage.py:150-173 | From an empty namespace these are exactly the pods, starting or left over, whose user's last request or deletion is more than the TTL ago |
| Claims.OvertakesOnlyStarting | terminal_proxy/storage.py:150-173 | In fault-free runs it is exactly the existing pod that has been starting for longer than the TTL |
| Witnesses.SweepOvertakesStartingPod | terminal_proxy/storage.py:128-173 | For every TTL and user a fault-free run of two steps in which a sweep deletes the claim of a starting pod |
| Witnesses.FailedStartLosesClaim | terminal_proxy/pod_manager.py:185-191 | For every wait a fault-free run in which a start fails and a sweep within the TTL of the pod's deletion deletes the claim |
| Witnesses.RestartLosesClaim | terminal_proxy/pod_manager.py:87-91 | The same for a pod removed at start-up |
| Retention.ManagerDeletionGrantsGrace | terminal_proxy/pod_manager.py:231-236 | After eviction, idle or health removal the claim survives every sweep within the TTL of the deletion |
| Retention.FailedStartGrantsGraceIff | terminal_proxy/pod_manager.py:185-191 | After a failed start the claim survives every sweep within the TTL of the pod's deletion if and only if the wait took no time |
| Retention.RestartGrantsGraceIff | terminal_proxy/pod_manager.py:87-91 | The same after start-up removed a pod that is not Running: if and only if no time passed since the last stamp |
| PodManagement.PodManager.constructor | terminal_proxy/pod_manager.py:25-32 | A new manager tracks nothing |
| PodManagement.PodManager.GetOrCreateTerminal | terminal_proxy/pod_manager.py:109-142 | First half of get_or_create: whole new state, and which of hit, waiting or failure is answered |
| PodManagement.PodManager.TouchTerminal | terminal_proxy/pod_manager.py:116-120 | A hit: activity time and PVC stamp |
| PodManagement.PodManager.RecycleTerminal | terminal_proxy/pod_manager.py:122-129 | Recycling of a terminal that is not RUNNING, up to a raising pod deletion |
| PodManagement.PodManager.StartPodResources | terminal_proxy/pod_manager.py:144-174 | Storage, manifests and objects up to the wait; what was created before an exception stays |
| PodManagement.PodManager.PrepareUserStorage | terminal_proxy/pod_manager.py:147-153 | The storage part of a creation, with each point at which it may raise |
| PodManagement.PodManager.CreateTheObjects | terminal_proxy/pod_manager.py:161-168 | Secret, then pod, then service, without rollback |
| PodManagement.PodManager.FinishPodResources | terminal_proxy/pod_manager.py:179-196 | Second half: RUNNING and inserted, or torn down and raised |
| PodManagement.PodManager.EvictOldestPod | terminal_proxy/pod_manager.py:198-206 | Deletes the first least recently active terminal of the iteration order |
| PodManagement.PodManager.DeletePod | terminal_proxy/pod_manager.py:208-241 | Untracks the terminal and tries every deletion, swallowing exceptions |
| PodManagement.PodManager.CleanupIdlePods | terminal_proxy/pod_manager.py:253-264 | The collect-then-delete loops delete exactly the idle terminals, in iteration order |
| PodManagement.PodManager.LookAt | terminal_proxy/pod_manager.py:279-292 | The health decision and address change for one terminal |
| PodManagement.PodManager.LookAtAll | terminal_proxy/pod_manager.py:277-292 | The loop over all terminals collects the unhealthy and refreshes the rest |
| PodManagement.PodManager.CheckPodHealth | terminal_proxy/pod_manager.py:276-298 | The health sweep: refresh, then delete the unhealthy |
| PodManagement.PodManager.FailThenDelete | terminal_proxy/pod_manager.py:294-298 | Marking a terminal FAILED just before deleting it leaves no trace |
| PodManagement.PodManager.ReconcileExistingPods | terminal_proxy/pod_manager.py:58-93 | Start-up over the listed pods, ended by the first exception |
| PodManagement.PodManager.ReconcilePod | terminal_proxy/pod_manager.py:62-91 | One listed pod: adopt, remove, or skip |
| PodManagement.PodManager.CleanupPvcs | terminal_proxy/pod_manager.py:300-306 | The PVC sweep over the tracked users |
| PodManagement.StaysRaised | terminal_proxy/pod_manager.py:92-93 | Once start-up has raised, the remaining pods are not visited |
| Storage.StorageManager.EnsureShared | terminal_proxy/storage.py:27-59 | Creates the shared claim if missing, or raises |
| Storage.StorageManager.GetSharedNode | terminal_proxy/storage.py:61-70 | Searches for the node until a non-empty one is remembered |
| Storage.StorageManager.CreateForUser | terminal_proxy/storage.py:80-106 | Stamps an existing claim or creates a stamped one |
| Storage.StorageManager.Touch | terminal_proxy/storage.py:108-115 | Stamps a claim; failures are swallowed |
| Storage.StorageManager.DeleteForUser | terminal_proxy/storage.py:117-126 | Deletes a claim in per-user mode; failures are swallowed |
| Storage.StorageManager.CleanupExpiredPvcs | terminal_proxy/storage.py:128-173 | The sweep loop removes exactly the expired claims of inactive users that it reaches before an annotation with a UTC offset cuts it off, and tells whether it was cut off |
| Storage.SweepByAge | terminal_proxy/storage.py:128-173 | Each claim is swept exactly if retention is on with a TTL in per-user mode, the claims can be listed, it is a user's, reached and untracked, its stamp (or creation, if it has no annotation at all) is more than the TTL ago, and its deletion does not raise |
| Storage.OffsetCutsSweepOff | terminal_proxy/storage.py:146-168 | The first unattended user claim whose time has a UTC offset is the last one the sweep reaches |
| Provenance.ClusterStaysProper | terminal_proxy/storage.py:91-112 | Under any faults the proxy itself creates only well-formed names and writes no time with a UTC offset |
| Provenance.SweepsReachEverything | terminal_proxy/storage.py:146-173 | So in every run in which nobody else writes such a time, each sweep reaches every listed claim |
| Lifecycle.Oldest | terminal_proxy/pod_manager.py:202 | The result is tracked and no tracked terminal is less recently active |
| Readiness.WaitForPodReady | terminal_proxy/k8s/client.py:251-292 | At most 2 * timeout polls; success exactly from one poll, before the guard failed, that saw Running, that address and health 200; otherwise no poll was ready and there is no address |
| Readiness.DecidingPasses | terminal_proxy/k8s/client.py:263-290 | Missing, Pending and Succeeded pods are waited for, Failed and Unknown ones give up, Running ones count only with an address and health 200 |
| Waiting.ReadinessAnswerIsClean | terminal_proxy/pod_manager.py:170-181 | Whatever sweeps and pod changes come between the last poll and the end of the wait, the loop's answer is one that fault-free runs allow: success carries the address that poll saw in the cluster |
| Readiness.PollBound | terminal_proxy/k8s/client.py:259-290 | A poll that passes the guard is among the first 2 * timeout |
| Readiness.PollBoundIsTight | terminal_proxy/k8s/client.py:262-290 | Passes half a second apart that never decide make exactly 2 * timeout polls |
| ClusterModel.K8sClient.CreatePod | terminal_proxy/k8s/client.py:103-105 | Creates, or raises without effect on a conflict or fault |
| ClusterModel.K8sClient.CreateService | terminal_proxy/k8s/client.py:194-196 | The same for services |
| ClusterModel.K8sClient.CreateSecret | terminal_proxy/k8s/client.py:233-235 | The same for secrets |
| ClusterModel.K8sClient.CreatePvc | terminal_proxy/k8s/client.py:146-148 | The same for claims |
| ClusterModel.K8sClient.DeletePod | terminal_proxy/k8s/client.py:113-123 | Deletes; a missing pod is no error |
| ClusterModel.K8sClient.DeleteService | terminal_proxy/k8s/client.py:204-210 | The same for services |
| ClusterModel.K8sClient.DeleteSecret | terminal_proxy/k8s/client.py:243-249 | The same for secrets |
| ClusterModel.K8sClient.DeletePvc | terminal_proxy/k8s/client.py:156-162 | The same for claims |
| ClusterModel.K8sClient.AnnotatePvc | terminal_proxy/k8s/client.py:183-186 | Stamps a claim; raises if it is missing |
| ClusterModel.K8sClient.ListTerminalPods | terminal_proxy/k8s/client.py:90-95 | The pods with both labels, in the API's order |
| ClusterModel.K8sClient.GetSharedPvcNode | terminal_proxy/k8s/client.py:294-304 | The node of the first listed pod that mounts the claim, even if it is unset |
| ClusterModel.ListedPodsMembers | terminal_proxy/k8s/client.py:92-95 | A listing contains exactly the labelled pods, each once |
| ClusterModel.ListedPodsInOrder | terminal_proxy/k8s/client.py:92-95 | A listing keeps the API's order |
| ClusterModel.FirstMountIsFirst | terminal_proxy/k8s/client.py:294-304 | The search answers the node of the first listed pod that mounts the claim, and nothing if there is none |
| PodBuilder.ManifestsFitTogether | terminal_proxy/k8s/pod_builder.py:248-309 | The service selects the pod, the pod reads the secret, the secret decodes to the key, the pod has the claim and sub-path of its mode, and it is pinned to the shared node exactly in shared-RWO mode if there is one |
| Terminals.Create | terminal_proxy/models.py:59-75 | A new terminal is CREATING, bears the names of its hash, and is active now |
| Names.RenderIsInjective | terminal_proxy/models.py:64-70 | Names of different kinds or hashes never coincide as strings |
| Names.NamesAreReadable | terminal_proxy/models.py:67-70 | Each name can be read back from its string |
| Provenance.NamesIdentifyObjects | terminal_proxy/models.py:64-70 | In every state of every fault-free run two names of objects or live terminals that are the same string are the same name |
| Names.RenderIsLabel | terminal_proxy/models.py:64-70 | Every derived name is a valid label |
| Names.SanitizeIsLabel | terminal_proxy/models.py:20-26 | The sanitiser always yields a label of 1 to 63 characters of [a-z0-9-] without leading, trailing or doubled hyphen |
| Names.SanitizeJoinsWords | terminal_proxy/models.py:20-26 | The result is the lower-cased name's words over [a-z0-9], joined by single hyphens, cut to 63 characters without a trailing hyphen, or "unknown" |
| Names.SanitizeFixesExactlyLabels | terminal_proxy/models.py:20-26 | A text is left unchanged if and only if it is such a label |
| Names.SanitizeIsIdempotent | terminal_proxy/models.py:20-26 | Sanitising twice is sanitising once |
| Base64.RoundTrip | terminal_proxy/k8s/pod_builder.py:65 | Decoding an encoded byte string gives it back (section 4 of RFC 4648) |
| Base64.PaddingEndsText | terminal_proxy/pod_manager.py:101 | Whatever follows the padding of an encoding is ignored when decoding |
| Base64.ForeignCharactersAreSkipped | terminal_proxy/pod_manager.py:101 | ASCII characters outside the alphabet do not matter anywhere in a text |
| Base64.EarlyPaddingIsSkipped | terminal_proxy/pod_manager.py:101 | Padding before the second symbol of a quantum is ignored |
| Base64.PaddingMustBeComplete | terminal_proxy/pod_manager.py:101 | An encoding whose padding is cut short is refused |
| Base64.UnpaddedQuantaMustBeWhole | terminal_proxy/pod_manager.py:101 | Symbols without padding are decoded exactly if they make up whole quanta |
| Base64.QuantumIsBase64Number | terminal_proxy/k8s/pod_builder.py:65 | Four symbols write the 24-bit number of three bytes in base 64 |
| Base64.SymbolFollowsTable | terminal_proxy/k8s/pod_builder.py:65 | The 64 symbols are those of Table 1 in section 4 of RFC 4648, in its order |
| Base64.ValueIsPlace | terminal_proxy/pod_manager.py:101 | Exactly these symbols have a value when decoding: their place in the table |
| Base64.PaddingIsExact | terminal_proxy/k8s/pod_builder.py:65 | As many '=' as the last group lacks bytes, all at the end, after the encoding of the bytes filled up with zeros |
| Base64.EncodedLength | terminal_proxy/k8s/pod_builder.py:65 | Four characters per started group of three bytes |
| Base64.KeyRoundTrip | terminal_proxy/pod_manager.py:99-101 | An API key read back from a secret is the key that was stored |
| CircuitBreakers.CircuitBreaker.constructor | terminal_proxy/circuit_breaker.py:26-34 | A new breaker is CLOSED with no history |
| CircuitBreakers.CircuitBreaker.CanExecute | terminal_proxy/circuit_breaker.py:41-64 | The answer and the whole new state |
| CircuitBreakers.CircuitBreaker.RecordSuccess | terminal_proxy/circuit_breaker.py:66-75 | The whole new state |
| CircuitBreakers.CircuitBreaker.RecordFailure | terminal_proxy/circuit_breaker.py:77-90 | The whole new state |
| CircuitBreakers.FailureCountIsStreak | terminal_proxy/circuit_breaker.py:66-90 | The failure counter equals the failures since the last success recorded while not OPEN |
| CircuitBreakers.ClosedIffBelowThreshold | terminal_proxy/circuit_breaker.py:77-90 | CLOSED if and only if the counter is below the threshold |
| CircuitBreakers.ShortStreakAdmits | terminal_proxy/circuit_breaker.py:44-45 | While the failures since the last counted success are below the threshold, every request is admitted |
| CircuitBreakers.LastFailureTimeIsLatest | terminal_proxy/circuit_breaker.py:79-81 | The stored time is that of the latest recorded failure, late ones included |
| CircuitBreakers.NotClosedHasFailed | terminal_proxy/circuit_breaker.py:77-90 | OPEN and HALF_OPEN imply a recorded failure time |
| CircuitBreakers.OpenAdmitsIffRecovered | terminal_proxy/circuit_breaker.py:47-56 | An OPEN breaker admits if and only if the recovery timeout has passed since every failure recorded so far |
| CircuitBreakers.FailureReopens | terminal_proxy/circuit_breaker.py:77-90 | A failure at the end of a full streak leaves the breaker OPEN whatever mode it met, admitting exactly from one recovery timeout later on |
| CircuitBreakers.OnlyAdmissionLeavesOpen | terminal_proxy/circuit_breaker.py:47-90 | Only an admitted request, never an outcome, makes an OPEN breaker leave that mode |
| CircuitBreakers.BreakerRefinesTally | terminal_proxy/circuit_breaker.py:22-90 | After every history, on any clock, the modes encode two counts: failures since the last success that counted, and admissions since the latest failure |
| CircuitBreakers.DecisionsRefineTally | terminal_proxy/circuit_breaker.py:41-64 | So the breaker answers each request as the machine without modes that keeps these counts |
| CircuitBreakers.AmortisedAdmissionBound | terminal_proxy/circuit_breaker.py:41-90 | In a segment that starts OPEN and records no success, an interval of length T admits at most (half_open_max_calls + 1) * (T div recovery_timeout + 1) requests |
| CircuitBreakers.OpenBound | terminal_proxy/circuit_breaker.py:47-56 | From OPEN: at most one half-open episode per recovery period that begins in the interval |
| CircuitBreakers.HalfOpenBound | terminal_proxy/circuit_breaker.py:58-62 | From HALF_OPEN: the free slots, and one episode per later recovery period |
| CircuitBreakers.OutcomeUnblocks | terminal_proxy/circuit_breaker.py:66-90 | A success admits every request at once; a failure admits one exactly from one recovery timeout later on |
| CircuitBreakers.StaysTripped | terminal_proxy/circuit_breaker.py:41-90 | Without a success CLOSED is not reached, and the half-open counter stays within its limit |
| CircuitBreakers.AdmissionBoundIsTight | terminal_proxy/circuit_breaker.py:52-62 | For an interval of every length the bound is attained, because the call that enters HALF_OPEN is not counted |
| CircuitBreakers.RefusesForeverIff | terminal_proxy/circuit_breaker.py:41-64 | After any history, every later request is refused until an outcome arrives if and only if the breaker is HALF_OPEN with every slot taken |
| CircuitBreakers.BlockingIsReachable | terminal_proxy/circuit_breaker.py:52-90 | Under every policy a fresh breaker gets there: a full streak of failures, then a burst at the instant of recovery |
| CircuitBreakers.LostProbesBlockForever | terminal_proxy/circuit_breaker.py:58-62 | In that state requests alone are never admitted and change nothing |
| CircuitBreakers.BlockedExactlyUntilOutcome | terminal_proxy/circuit_breaker.py:58-90 | The state lasts throughout a continuation if and only if that contains no outcome |
| BreakerRegistry.CircuitBreakerRegistry.Get | terminal_proxy/circuit_breaker.py:100-104 | The breaker of a key, created on first use; no other key changes |
| BreakerRegistry.CircuitBreakerRegistry.Remove | terminal_proxy/circuit_breaker.py:106-108 | Forgets one key and no other |
| BreakerRegistry.HttpProxy.AskToProceed | terminal_proxy/proxy/http.py:58-65 | The question changes the breaker of the request's key only, and a request without key is admitted |
| BreakerRegistry.HttpProxy.Settle | terminal_proxy/proxy/http.py:77-107 | An outcome changes the breaker of the request's key only; other endings change nothing |
| BreakerRegistry.HttpProxy.RecordSuccess | terminal_proxy/proxy/http.py:86-88 | The breaker is looked up again when the response arrives |
| BreakerRegistry.HttpProxy.RecordFailure | terminal_proxy/proxy/http.py:90-102 | The same for a connection failure or a timeout |
| BreakerRegistry.RegistryProjection | terminal_proxy/circuit_breaker.py:93-104 | For any interleaving over many keys, a key's breaker is that of a single breaker run on that key's events |
| BreakerRegistry.OperationsFollowOutcomes | terminal_proxy/proxy/http.py:58-107 | Over all traffic a key's breaker sees a question per arrival, a success exactly per response, a failure exactly per failed connection or timeout, in order and at their instants, and nothing else |
| BreakerRegistry.DecisionsFollowOutcomes | terminal_proxy/circuit_breaker.py:26-64 | A request is admitted exactly with fewer than 5 failures in the streak, or at least 30 s after the latest failure, or as one of the three after the one that was |
| BreakerRegistry.KeylessRequestsBypass | terminal_proxy/proxy/http.py:58-102 | Requests without a key are always let through and touch no breaker |
| BreakerRegistry.OtherKeysDoNotInterfere | terminal_proxy/circuit_breaker.py:93-104 | Traffic of other keys changes neither state nor answer of a key |
| BreakerRegistry.OutcomesAreConserved | terminal_proxy/proxy/http.py:58-107 | Every admitted request is pending, has recorded one outcome, or ended silently; rejected ones record nothing |
| RateLimiting.RateLimiter.Handle | terminal_proxy/main.py:207-220 | The decision and the whole new state of the pruned lists |
| RateLimiting.PruningIsInvisible | terminal_proxy/main.py:210 | Pruning at one instant changes no later window |
| RateLimiting.PrunedAgreesWithHistory | terminal_proxy/main.py:207-220 | On a non-decreasing clock the pruned lists and the full history give the same window at every later instant |
| RateLimiting.DecisionsRefineFullHistory | terminal_proxy/main.py:207-220 | A request is rejected if and only if at least 300 accepted requests of its client, in the complete history, are less than 60 s old; other clients do not matter |
| RateLimiting.EachHostIsLimitedByItself | terminal_proxy/main.py:207-220 | A request is accepted exactly if fewer than 300 of the requests its own host ever got accepted are less than 60 s old; requests without an address count as one host |
| RateLimiting.AcceptedAreSpaced | terminal_proxy/main.py:210-220 | The 300th accepted request after another one comes at least 60 s later |
| RateLimiting.SpacedCount | terminal_proxy/main.py:210-220 | Stamps spaced in this way put at most 300 m into an interval shorter than m minutes |
| RateLimiting.IntervalBound | terminal_proxy/main.py:207-220 | An interval of length W accepts at most 300 * (W div 60 s + 1) requests of a client |
| Metrics.RequestMetrics.RecordRequest | terminal_proxy/metrics.py:21-28 | The whole new state of windows and error counts |
| Metrics.WindowIsSuffix | terminal_proxy/metrics.py:21-25 | After any records over many keys a key's list is the suffix of that key's own full history, of length n up to 1000, and 500 + ((n - 1001) mod 501) beyond |
| Metrics.ErrorsAreCounted | terminal_proxy/metrics.py:26-28 | The error count of a key and status is the number of its records with that status of at least 400, and absent if there are none |
| Metrics.SortIsCorrect | terminal_proxy/metrics.py:57 | Sorting orders the values and keeps each of them |
| Metrics.PercentileIsQuantile | terminal_proxy/metrics.py:54-60 | The result is a member, at most n*p/100 values are strictly below it, and more than n*p/100 are at most it (all of them from p = 100 on), which determines it |
| Metrics.NoValuesGiveZero | terminal_proxy/metrics.py:55-56 | Without values the result is 0 |
| Metrics.PercentileIsMonotoneAndOrderFree | terminal_proxy/metrics.py:54-60 | The result depends only on the multiset of values and is monotone in p |

## Left out

- Crashes between two API calls of one creation, and completeness of cleanup when API calls fail: the code has no rollback there; the fault theorems cover only the tracked terminals and the claims.
- Aliasing of terminal objects: a terminal is a value in a mutable map, so a request that still holds a terminal after its eviction is not modelled. `created_at` and `endpoint` are dropped.
- How the creation lock queues waiting requests, and cancellation of a request that has not yet got the lock: such a request has no effect.
- API latency, client retries, graceful deletion (a deleted pod that lingers and conflicts with its successor), objects of others in the namespace, and calls that take effect although they report an error.
- Several clock readings within one step; the step uses one. A clock that jumps backwards is covered only where no ordering is assumed.
- Routes, authentication, CORS, WebSocket pumping, HTTP header filtering, streaming and response bodies.
- Creation of the shared claim at application start-up; every creation in a shared mode ensures it again.
- Manifest fields without a branch of interest: image, resources, tolerations, node selector, security context. The per-user PVC manifest built next to the pod is never sent.
- SHA-256, random keys and ISO time stamps: arbitrary hashes, arbitrary keys and integers. A hash collision of two users is one user here.
- Keys outside ASCII: generated keys are URL-safe, so one byte per character. A stored key whose bytes are not ASCII counts as undecodable here, while the original accepts it if it is valid UTF-8.
- Recency.DictionaryRefinesRecencyList: assumes a strictly increasing clock, because with equal time stamps the victim depends on the iteration order of the dictionary.
- Metrics.Percentile: exact arithmetic; rounding of `len * p / 100` in floating point and negative percentages are not modelled.
- `record_pod_startup`, `update_pod_states`, Prometheus formatting, logging and configuration loading.
- Removal of breakers is modelled as an operation but not in the traffic theorems: no code calls it.
