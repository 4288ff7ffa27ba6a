/** The readiness polling loop of a starting pod. */
module Readiness {
  import opened Basics
  import opened ClusterModel

  const POLL_INTERVAL: int := SECOND / 2

  datatype Status = Status(phase: Phase, ip: Option<string>)

  /** What one pass of the loop observes: the clock when its guard is tested, the pod (absent if the
      API returns 404), and whether the health request is answered with 200. */
  datatype Pass = Pass(at: int, pod: Option<Status>, healthy: bool)

  /** What each pass of one wait observes, should the loop get that far. */
  type Script = nat -> Pass

  /** A pass that does not decide sleeps half a second before the next guard. */
  ghost predicate Sleeps(script: Script) {
    forall j: nat, k: nat :: k == j + 1 ==> script(k).at >= script(j).at + POLL_INTERVAL
  }

  predicate Ready(pass: Pass) {
    pass.pod.Some? && pass.pod.value.phase.Running? && Truthy(pass.pod.value.ip) && pass.healthy
  }

  predicate Broken(pass: Pass) {
    pass.pod.Some? && (pass.pod.value.phase.Failed? || pass.pod.value.phase.Unknown?)
  }

  /** The first `k` passes all ran, and none of them decided. */
  ghost predicate Undecided(script: Script, deadline: int, k: nat) {
    forall j: nat :: j < k ==> !Ready(script(j)) && !Broken(script(j)) && script(j).at < deadline
  }

  /** Pass `k` is reached: no earlier pass decided, and every guard up to its own held. */
  ghost predicate Reached(script: Script, deadline: int, k: nat) {
    Undecided(script, deadline, k) && script(k).at < deadline
  }

  /** Every pass that is reached is not ready. */
  ghost predicate NeverReady(script: Script, deadline: int) {
    forall k: nat :: Reached(script, deadline, k) ==> !Ready(script(k))
  }

  lemma {:induction false} ClockAdvances(script: Script, k: nat)
    requires Sleeps(script)
    ensures script(k).at >= script(0).at + k * POLL_INTERVAL
  {
    if k == 0 {
    } else {
      ClockAdvances(script, k - 1);
    }
  }

  lemma PollBound(script: Script, start: int, timeout: int, k: nat)
    requires Sleeps(script) && start <= script(0).at && script(k).at - start < timeout * SECOND
    ensures k < 2 * timeout
  {
    ClockAdvances(script, k);
  }

  /** The bound is attained by passes half a second apart that never decide: each of the first 2 * timeout
      passes its guard, and the next one does not. */
  lemma PollBoundIsTight(start: int, timeout: nat, k: nat)
    ensures var script: Script := (j: nat) => Pass(start + j * 500_000, None, false);
            && Sleeps(script) && start <= script(0).at
            && (script(k).at - start < timeout * SECOND <==> k < 2 * timeout)
            && !Ready(script(k)) && !Broken(script(k))
  {
  }

  lemma GuardFailed(script: Script, deadline: int, k: nat)
    requires Undecided(script, deadline, k) && script(k).at >= deadline
    ensures NeverReady(script, deadline)
  {
  }

  lemma PodBroke(script: Script, deadline: int, k: nat)
    requires Reached(script, deadline, k) && Broken(script(k))
    ensures NeverReady(script, deadline)
  {
  }

  /** What the wait answers after `polls` polls: every poll was made before the deadline, and all but the
      last saw neither a ready nor a broken pod; and then either the last one saw it ready, which gives
      success with that very address, or the last one saw it broken or the deadline has passed, which
      gives failure without an address. */
  ghost predicate IsAnswer(script: Script, deadline: int, ready: bool, ip: Option<string>, polls: nat) {
    if ready then
      && polls > 0 && Reached(script, deadline, polls - 1)
      && Ready(script(polls - 1)) && ip == script(polls - 1).pod.value.ip
    else
      && ip == None && NeverReady(script, deadline)
      && ((polls > 0 && Reached(script, deadline, polls - 1) && Broken(script(polls - 1)))
          || (Undecided(script, deadline, polls) && script(polls).at >= deadline))
  }

  /** Which passes decide: a missing, Pending or Succeeded pod never does, a Failed or Unknown one gives up
      at once, and a Running one counts only if it has an address and answers the health request. */
  lemma DecidingPasses(pass: Pass)
    ensures pass.pod.None? ==> !Ready(pass) && !Broken(pass)
    ensures forall ip :: pass.pod in {Some(Status(Pending, ip)), Some(Status(Succeeded, ip))} ==>
              !Ready(pass) && !Broken(pass)
    ensures forall ip :: pass.pod in {Some(Status(Failed, ip)), Some(Status(Unknown, ip))} ==>
              !Ready(pass) && Broken(pass)
    ensures forall ip :: pass.pod == Some(Status(Running, Some(ip))) ==>
              !Broken(pass) && (Ready(pass) <==> pass.healthy && ip != "")
    ensures pass.pod == Some(Status(Running, None)) ==> !Ready(pass) && !Broken(pass)
  {
  }

  /** The wait ends within 2 * timeout polls, with such an answer. */
  method WaitForPodReady(script: Script, start: int, timeout: int)
    returns (ready: bool, ip: Option<string>, polls: nat)
    requires Sleeps(script) && start <= script(0).at
    ensures polls <= 2 * Max(timeout, 0)
    ensures IsAnswer(script, start + timeout * SECOND, ready, ip, polls)
  {
    ghost var deadline := start + timeout * SECOND;
    var podIp: Option<string> := None;
    polls := 0;
    while script(polls).at - start < timeout * SECOND
      invariant Undecided(script, deadline, polls)
      invariant polls <= 2 * Max(timeout, 0)
      decreases 2 * Max(timeout, 0) - polls
    {
      PollBound(script, start, timeout, polls);
      var pass := script(polls);
      polls := polls + 1;
      if pass.pod.Some? {
        var status := pass.pod.value;
        if status.phase == Running {
          if Truthy(status.ip) {
            podIp := status.ip;
            if pass.healthy {
              return true, podIp, polls;
            }
          }
        } else if status.phase == Failed || status.phase == Unknown {
          PodBroke(script, deadline, polls - 1);
          return false, None, polls;
        }
      }
    }
    GuardFailed(script, deadline, polls);
    return false, None, polls;
  }
}
