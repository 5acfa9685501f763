/** internal/controller/reconciler_reload.go: reloading a list of targets, one after the other. */
module Reload {
  import opened Common
  import opened Kube
  import opened Api
  import opened Queue
  import opened Updater

  /** What became of one target. */
  datatype Outcome = CheckFailed | SkippedPaused | Failed(message: string) | Reloaded

  predicate Attempted(o: Outcome)
  {
    o.Failed? || o.Reloaded?
  }

  /** The target with the newest copy of its config, or the old copy when that cannot be fetched. */
  function Refreshed(ctx: Context, c: Cluster, target: Target, n: nat): (r: Target)
    ensures r.(config := target.config) == target
    ensures r.config.Some? <==> target.config.Some?
    ensures target.config.Some? ==> r.config.value.key == target.config.value.key
  {
    match target.config
    case None => target
    case Some(config) =>
      match ReadConfig(c, config.key, ctx.Fault(RefreshConfig(n)))
      case Err(_) => target
      case Ok(i) => target.(config := Some(c.configs[i]))
  }

  /** handleReloadError and handleReloadSuccess: CRD targets get a status update, others only an alert. */
  function Reported(target: Target, errorMsg: string): seq<StatusRequest>
  {
    match target.config
    case None => []
    case Some(config) => [TargetRequest(config.key, target, errorMsg)]
  }

  datatype Handled = Handled(cluster: Cluster, outcome: Outcome, requests: seq<StatusRequest>)

  /** Each target takes three clock readings: pause check, reload, last-reload stamp. */
  const READINGS := 3

  function ReloadOne(ctx: Context, c: Cluster, target: Target, trigger: Trigger, n: nat): Handled
  {
    var latest := Refreshed(ctx, c, target, n);
    var t := READINGS * n;
    match PauseOf(ctx, c, latest, n, ctx.Now(t))
    case Unreadable(_) => Handled(c, CheckFailed, [])
    case Paused => Handled(c, SkippedPaused, [])
    case Running =>
      var done := Triggered(ctx, c, latest, trigger, n, t + 1);
      match done.err
      case Some(m) => Handled(done.cluster, Failed(m), Reported(latest, m))
      case None => Handled(done.cluster, Reloaded, Reported(latest, ""))
  }

  /** A target that is not attempted changes nothing; an attempted one is triggered. */
  lemma ReloadOneCases(ctx: Context, c: Cluster, target: Target, trigger: Trigger, n: nat)
    ensures var step := ReloadOne(ctx, c, target, trigger, n);
            var done := Triggered(ctx, c, Refreshed(ctx, c, target, n), trigger, n, READINGS * n + 1);
            if Attempted(step.outcome) then step.cluster == done.cluster &&
                 (step.outcome.Reloaded? <==> done.err == None)
            else step.cluster == c
  {
  }

  /** How one target is handled, as a value: the cluster, the target and its position in the list. */
  type Handler = (Cluster, Target, nat) -> Handled

  function ReloadHandler(ctx: Context, trigger: Trigger): Handler
  {
    (c: Cluster, target: Target, n: nat) => ReloadOne(ctx, c, target, trigger, n)
  }

  datatype Progress = Progress(cluster: Cluster, outcomes: seq<Outcome>, requests: seq<StatusRequest>)

  /** The loop of executeReloads and executeDeleteReloads after the first n targets. */
  function HandledUpTo(handle: Handler, c: Cluster, targets: seq<Target>, n: nat): (p: Progress)
    requires n <= |targets|
    ensures |p.outcomes| == n
  {
    if n == 0 then Progress(c, [], [])
    else
      var before := HandledUpTo(handle, c, targets, n - 1);
      var step := handle(before.cluster, targets[n - 1], n - 1);
      Progress(step.cluster, before.outcomes + [step.outcome], before.requests + step.requests)
  }

  function Executed(ctx: Context, c: Cluster, targets: seq<Target>, trigger: Trigger): Progress
  {
    HandledUpTo(ReloadHandler(ctx, trigger), c, targets, |targets|)
  }

  function Successes(outcomes: seq<Outcome>): nat
  {
    if outcomes == [] then 0
    else
      var n := |outcomes| - 1;
      Successes(outcomes[..n]) + (if outcomes[n].Reloaded? then 1 else 0)
  }

  /** The loop body for one target. */
  method ReloadTarget(ctx: Context, api: ApiServer, statusQueue: WorkQueue, listed: Target, trigger: Trigger, n: nat)
    returns (outcome: Outcome)
    modifies api, statusQueue
    ensures var step := ReloadOne(ctx, old(api.state), listed, trigger, n);
            && api.state == step.cluster
            && outcome == step.outcome
            && statusQueue.Value() == EnqueueAll(old(statusQueue.Value()), step.requests)
  {
    var target := listed;
    if target.config.Some? {
      var fetched := api.GetConfig(target.config.value.key, ctx.Fault(RefreshConfig(n)));
      if fetched.Ok? {
        target := target.(config := Some(fetched.value));
      }
    }
    var pause := IsPaused(ctx, api, target, n, ctx.Now(READINGS * n));
    match pause {
      case Unreadable(_) => return CheckFailed;
      case Paused => return SkippedPaused;
      case Running =>
    }
    var err := TriggerReload(ctx, api, target, trigger, n, READINGS * n + 1);
    if target.config.Some? {
      var request := TargetRequest(target.config.value.key, target, if err.Some? then err.value else "");
      EnqueueLast(statusQueue.Value(), [], request);
      assert [] + [request] == [request];
      statusQueue.EnqueueRequest(request);
    }
    return if err.Some? then Failed(err.value) else Reloaded;
  }

  method ExecuteReloads(ctx: Context, api: ApiServer, statusQueue: WorkQueue, targets: seq<Target>, trigger: Trigger)
    returns (successCount: nat, ghost outcomes: seq<Outcome>)
    modifies api, statusQueue
    ensures var p := Executed(ctx, old(api.state), targets, trigger);
            && api.state == p.cluster
            && statusQueue.Value() == EnqueueAll(old(statusQueue.Value()), p.requests)
            && outcomes == p.outcomes
            && successCount == Successes(p.outcomes)
  {
    successCount := 0;
    outcomes := [];
    ghost var handle, before := ReloadHandler(ctx, trigger), api.state;
    for n := 0 to |targets|
      invariant var p := HandledUpTo(handle, before, targets, n);
                && api.state == p.cluster
                && statusQueue.Value() == EnqueueAll(old(statusQueue.Value()), p.requests)
                && outcomes == p.outcomes
                && successCount == Successes(p.outcomes)
    {
      ghost var p := HandledUpTo(handle, before, targets, n);
      EnqueueInTurn(old(statusQueue.Value()), p.requests, handle(p.cluster, targets[n], n).requests);
      var outcome := ReloadTarget(ctx, api, statusQueue, targets[n], trigger, n);
      assert (outcomes + [outcome])[..n] == outcomes;
      outcomes := outcomes + [outcome];
      if outcome.Reloaded? {
        successCount := successCount + 1;
      }
    }
  }

  /* ---- Facts about the loop, for any way of handling a target ---- */

  /** What each step keeps, the loop keeps. */
  lemma LoopKeeps(handle: Handler, c: Cluster, targets: seq<Target>, n: nat, keeps: Cluster -> bool)
    requires n <= |targets|
    requires keeps(c)
    requires forall d, k: nat :: k < n && keeps(d) ==> keeps(handle(d, targets[k], k).cluster)
    ensures keeps(HandledUpTo(handle, c, targets, n).cluster)
  {
  }

  lemma {:induction false} LoopKeepsFrom(handle: Handler, c: Cluster, targets: seq<Target>, i: nat, n: nat,
                                         keeps: Cluster -> bool)
    requires i <= n <= |targets|
    requires keeps(HandledUpTo(handle, c, targets, i).cluster)
    requires forall d, k: nat :: k < n && keeps(d) ==> keeps(handle(d, targets[k], k).cluster)
    ensures keeps(HandledUpTo(handle, c, targets, n).cluster)
  {
    if i != n {
      LoopKeepsFrom(handle, c, targets, i, n - 1, keeps);
    }
  }

  lemma {:induction false} LoopOutcome(handle: Handler, c: Cluster, targets: seq<Target>, n: nat, i: nat)
    requires i < n <= |targets|
    ensures HandledUpTo(handle, c, targets, n).outcomes[i] ==
            handle(HandledUpTo(handle, c, targets, i).cluster, targets[i], i).outcome
  {
    if i < n - 1 {
      LoopOutcome(handle, c, targets, n - 1, i);
    }
  }

  ghost function AttemptedConfigTargets(targets: seq<Target>, outcomes: seq<Outcome>): nat -> bool
  {
    (i: nat) => i < |targets| && i < |outcomes| && targets[i].config.Some? && Attempted(outcomes[i])
  }

  ghost predicate ReportsOn(r: StatusRequest, target: Target, o: Outcome)
  {
    r.TargetRequest? && target.config.Some? && r.config == target.config.value.key &&
    r.target.(config := target.config) == target && (r.errorMsg == "" <==> o.Reloaded?) &&
    (o.Failed? ==> r.errorMsg == o.message)
  }

  /** An attempted CRD target is reported once, any other target never. */
  ghost predicate StepReports(step: Handled, target: Target)
  {
    if target.config.Some? && Attempted(step.outcome) then |step.requests| == 1 &&
         ReportsOn(step.requests[0], target, step.outcome)
    else step.requests == []
  }

  /** The requests report, in order, on the targets at these positions. */
  ghost predicate Report(targets: seq<Target>, outcomes: seq<Outcome>, requests: seq<StatusRequest>,
                         positions: seq<nat>)
  {
    && |requests| == |positions|
    && forall k :: 0 <= k < |positions| ==>
         positions[k] < |targets| && positions[k] < |outcomes| &&
         ReportsOn(requests[k], targets[positions[k]], outcomes[positions[k]])
  }

  /** The requests are, in order, one for each attempted CRD target. */
  ghost predicate RequestsMatch(targets: seq<Target>, p: Progress, n: nat)
  {
    Report(targets, p.outcomes, p.requests, Kept(n, AttemptedConfigTargets(targets, p.outcomes)))
  }

  lemma ReportNext(targets: seq<Target>, outcomes: seq<Outcome>, requests: seq<StatusRequest>, positions: seq<nat>,
                   o: Outcome, r: StatusRequest)
    requires Report(targets, outcomes, requests, positions) && |outcomes| < |targets| &&
             ReportsOn(r, targets[|outcomes|], o)
    ensures Report(targets, outcomes + [o], requests + [r], positions + [|outcomes|])
  {
  }

  lemma ReportSame(targets: seq<Target>, outcomes: seq<Outcome>, requests: seq<StatusRequest>, positions: seq<nat>,
                   o: Outcome)
    requires Report(targets, outcomes, requests, positions)
    ensures Report(targets, outcomes + [o], requests, positions)
  {
  }

  lemma KeptAfterStep(targets: seq<Target>, outcomes: seq<Outcome>, o: Outcome)
    requires |outcomes| < |targets|
    ensures var n := |outcomes|;
            var positions := Kept(n, AttemptedConfigTargets(targets, outcomes));
            Kept(n + 1, AttemptedConfigTargets(targets, outcomes + [o])) ==
              if targets[n].config.Some? && Attempted(o) then positions + [n] else positions
  {
    KeptSame(|outcomes|, AttemptedConfigTargets(targets, outcomes), AttemptedConfigTargets(targets, outcomes + [o]));
  }

  lemma MatchAfterStep(targets: seq<Target>, before: Progress, step: Handled)
    requires |before.outcomes| < |targets|
    requires RequestsMatch(targets, before, |before.outcomes|)
    requires StepReports(step, targets[|before.outcomes|])
    ensures RequestsMatch(targets, Progress(step.cluster, before.outcomes + [step.outcome],
                                            before.requests + step.requests),
                          |before.outcomes| + 1)
  {
    var n := |before.outcomes|;
    var positions := Kept(n, AttemptedConfigTargets(targets, before.outcomes));
    KeptAfterStep(targets, before.outcomes, step.outcome);
    if targets[n].config.Some? && Attempted(step.outcome) {
      assert step.requests == [step.requests[0]];
      ReportNext(targets, before.outcomes, before.requests, positions, step.outcome, step.requests[0]);
    } else {
      assert before.requests + step.requests == before.requests;
      ReportSame(targets, before.outcomes, before.requests, positions, step.outcome);
    }
  }

  lemma {:induction false} LoopReports(handle: Handler, c: Cluster, targets: seq<Target>, n: nat)
    requires n <= |targets|
    requires forall d, k: nat :: k < n ==> StepReports(handle(d, targets[k], k), targets[k])
    ensures RequestsMatch(targets, HandledUpTo(handle, c, targets, n), n)
  {
    if n == 0 {
    } else {
      LoopReports(handle, c, targets, n - 1);
      var before := HandledUpTo(handle, c, targets, n - 1);
      MatchAfterStep(targets, before, handle(before.cluster, targets[n - 1], n - 1));
    }
  }

  function ReloadedAt(outcomes: seq<Outcome>): set<int>
  {
    set i | 0 <= i < |outcomes| && outcomes[i].Reloaded?
  }

  lemma ReloadedAtNext(outcomes: seq<Outcome>, o: Outcome)
    ensures ReloadedAt(outcomes + [o]) == if o.Reloaded? then ReloadedAt(outcomes) + {|outcomes|}
            else ReloadedAt(outcomes)
    ensures |outcomes| !in ReloadedAt(outcomes)
  {
  }

  lemma {:induction false} SuccessesAreCounted(outcomes: seq<Outcome>)
    ensures Successes(outcomes) == |ReloadedAt(outcomes)|
  {
    if outcomes == [] {
    } else {
      var n := |outcomes| - 1;
      SuccessesAreCounted(outcomes[..n]);
      assert outcomes[..n] + [outcomes[n]] == outcomes;
      ReloadedAtNext(outcomes[..n], outcomes[n]);
    }
  }

  /* ---- Accounting ---- */

  /** Errors of a reload have a text. */
  lemma ErrorsHaveText(ctx: Context, c: Cluster, target: Target, trigger: Trigger, n: nat, t: nat)
    requires Speaking(ctx.faults)
    ensures Triggered(ctx, c, target, trigger, n, t).err != Some("")
  {
  }

  lemma ReloadReports(ctx: Context, c: Cluster, target: Target, trigger: Trigger, n: nat)
    requires Speaking(ctx.faults)
    ensures StepReports(ReloadOne(ctx, c, target, trigger, n), target)
  {
    ErrorsHaveText(ctx, c, Refreshed(ctx, c, target, n), trigger, n, READINGS * n + 1);
  }

  /** Not paused, and the reload itself succeeds. */
  ghost predicate ReloadsNow(ctx: Context, c: Cluster, target: Target, trigger: Trigger, n: nat)
  {
    var latest := Refreshed(ctx, c, target, n);
    PauseOf(ctx, c, latest, n, ctx.Now(READINGS * n)).Running? &&
    Triggered(ctx, c, latest, trigger, n, READINGS * n + 1).err == None
  }

  /** For any targets, pauses and failures: every target has one outcome, reloaded exactly when, in the state the
      earlier targets left, it was not paused and its reload succeeded; the returned count is the number of those;
      and the status requests are, in order, one for each attempted CRD target, with an empty error exactly when
      it succeeded. */
  lemma ExecutionAccounting(ctx: Context, c: Cluster, targets: seq<Target>, trigger: Trigger)
    requires Speaking(ctx.faults)
    ensures var p := Executed(ctx, c, targets, trigger);
            && |p.outcomes| == |targets|
            && (forall i: nat :: i < |targets| ==>
                  var before := HandledUpTo(ReloadHandler(ctx, trigger), c, targets, i).cluster;
                  (p.outcomes[i].Reloaded? <==> ReloadsNow(ctx, before, targets[i], trigger, i)))
            && Successes(p.outcomes) == |ReloadedAt(p.outcomes)|
            && RequestsMatch(targets, p, |targets|)
  {
    var p, handle := Executed(ctx, c, targets, trigger), ReloadHandler(ctx, trigger);
    forall i: nat | i < |targets|
      ensures var before := HandledUpTo(handle, c, targets, i).cluster;
              (p.outcomes[i].Reloaded? <==> ReloadsNow(ctx, before, targets[i], trigger, i))
    {
      LoopOutcome(handle, c, targets, |targets|, i);
    }
    SuccessesAreCounted(p.outcomes);
    forall d, k: nat | k < |targets| ensures StepReports(handle(d, targets[k], k), targets[k]) {
      ReloadReports(ctx, d, targets[k], trigger, k);
    }
    LoopReports(handle, c, targets, |targets|);
  }

  /* ---- Which targets are attempted at all ---- */

  /** A target without a pause period is always attempted. */
  lemma NoPeriodIsAttempted(ctx: Context, c: Cluster, target: Target, trigger: Trigger, n: nat)
    requires target.pausePeriod == ""
    ensures Attempted(ReloadOne(ctx, c, target, trigger, n).outcome)
  {
  }

  /** A pause period that does not parse, or a workload that cannot be read for its stamp, leaves the target alone and
      reports nothing. */
  lemma UncheckedIsLeftAlone(ctx: Context, c: Cluster, target: Target, trigger: Trigger, n: nat)
    requires target.pausePeriod != ""
    requires ctx.platform.parseDuration(target.pausePeriod) == None ||
             (target.config == None && ReadWorkload(c, target.key, ctx.Fault(ReadPaused(n))).Err?)
    ensures ReloadOne(ctx, c, target, trigger, n) == Handled(c, CheckFailed, [])
  {
  }

  /** An attempt is a reload by the target's own rollout, and it succeeded exactly when that did. */
  lemma AttemptTriggers(ctx: Context, c: Cluster, target: Target, trigger: Trigger, n: nat)
    requires Attempted(ReloadOne(ctx, c, target, trigger, n).outcome)
    ensures var step := ReloadOne(ctx, c, target, trigger, n);
            var done := Triggered(ctx, c, target, trigger, n, READINGS * n + 1);
            && step.cluster == done.cluster
            && step.outcome == match done.err case None => Reloaded case Some(m) => Failed(m)
  {
    TriggeredIgnoresStatus(ctx, c, target, Refreshed(ctx, c, target, n), trigger, n, READINGS * n + 1);
  }

  /** What a reload does depends on whether the target has a config, not on what is in it. */
  lemma TriggeredIgnoresStatus(ctx: Context, c: Cluster, target: Target, other: Target, trigger: Trigger, n: nat,
                               t: nat)
    requires other.(config := target.config) == target && (other.config.Some? <==> target.config.Some?)
    ensures Triggered(ctx, c, other, trigger, n, t) == Triggered(ctx, c, target, trigger, n, t)
  {
  }

  /** For the pause check the newest copy of the config counts, or the listed one when it cannot be fetched. */
  lemma RefreshedExactly(ctx: Context, c: Cluster, target: Target, n: nat)
    ensures var latest := Refreshed(ctx, c, target, n);
            match target.config
            case None => latest == target
            case Some(config) =>
              if ctx.Fault(RefreshConfig(n)) == None && exists newest :: newest in c.configs && newest.key == config.key
              then latest.config.value in c.configs && latest.config.value.key == config.key
              else latest == target
  {
  }
}
