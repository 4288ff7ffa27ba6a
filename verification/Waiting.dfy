/** The readiness loop inside a run: what the wait answers is what the fault-free runs assume of it. */
module Waiting {
  import opened Basics
  import opened Terminals
  import opened ClusterModel
  import opened Lifecycle
  import opened Runs
  import opened Readiness

  /** The pass sees the pod of the creation in progress as it is in the cluster. */
  ghost predicate Observes(w: World, pass: Pass)
    requires w.creating.Some?
  {
    var n := w.creating.value.terminal.podName;
    pass.pod == if n in w.cluster.pods then Some(Status(w.cluster.pods[n].phase, w.cluster.pods[n].ip)) else None
  }

  /** An event that can happen between a poll and the end of the wait: a sweep or an environment change. */
  predicate IsAside(e: Event) {
    e.IdleSweep? || e.HealthSweep? || e.PvcSweep? || e.Environment?
  }

  /** Event `j` is a poll, and no later one is made before state `i`. */
  ghost predicate LastPoll(es: seq<Event>, j: nat, i: nat) {
    j < i <= |es| && es[j].Poll? && forall m :: j < m < i ==> IsAside(es[m])
  }

  lemma DecisivePollIsSeen(w: World, pass: Pass)
    requires w.creating.Some? && Observes(w, pass) && Ready(pass)
    ensures Polled(w).creating == Some(InProgress(w.creating.value.terminal, pass.pod.value.ip))
  {
  }

  lemma AsideKeepsCreation(cfg: Settings, w: World, e: Event)
    requires Enabled(cfg, w, e) && IsAside(e)
    ensures Next(cfg, w, e).creating == w.creating
  {
    hide DropAll;
    match e
    case IdleSweep(order, now, f) => DropAllShape(cfg, w, IdleAmong(cfg, w.pods, now, order), now, f);
    case HealthSweep(order, now, f) => DropAllShape(cfg, RefreshAll(w, f), UnhealthyAmong(w, f, order), now, f);
    case PvcSweep(_, _, _) =>
    case Environment(_) =>
  }

  lemma {:induction false} AsidesKeepCreation(cfg: Settings, ws: seq<World>, es: seq<Event>, j: nat, i: nat)
    requires IsRun(cfg, ws, es) && j <= i < |ws| && forall m :: j <= m < i ==> IsAside(es[m])
    ensures ws[i].creating == ws[j].creating
    decreases i
  {
    hide Next, Enabled, IsAside;
    if i == j {
    } else {
      AsidesKeepCreation(cfg, ws, es, j, i - 1);
      assert Enabled(cfg, ws[i - 1], es[i - 1]) && ws[i - 1 + 1] == Next(cfg, ws[i - 1], es[i - 1]);
      AsideKeepsCreation(cfg, ws[i - 1], es[i - 1]);
    }
  }

  /** If the last pass of a wait that answers success observed the cluster at the last poll of the run,
      then ending the wait with the loop's answer, without API faults, is a fault-free step: success
      carries the address that the poll saw, whatever sweeps and changes came in between. */
  lemma ReadinessAnswerIsClean(cfg: Settings, ws: seq<World>, es: seq<Event>, j: nat, i: nat,
                               script: Script, deadline: int, ready: bool, ip: Option<string>, polls: nat)
    requires IsRun(cfg, ws, es) && i < |ws| && ws[i].creating.Some?
    requires IsAnswer(script, deadline, ready, ip, polls)
    requires ready ==> LastPoll(es, j, i) && Enabled(cfg, ws[j], es[j]) && Observes(ws[j], script(polls - 1))
    ensures Clean(cfg, ws[i], Answer(ready, ip, NO_FAULTS))
  {
    if ready {
      DecisivePollIsSeen(ws[j], script(polls - 1));
      assert ws[j + 1] == Next(cfg, ws[j], es[j]);
      AsidesKeepCreation(cfg, ws, es, j + 1, i);
    }
  }
}
