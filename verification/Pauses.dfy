/** Pause periods over runs: annotated workloads are reloaded at a bounded rate, and a CRD target is not reloaded
    before the end of the pause that its status records. */
module Pauses {
  import opened Common
  import opened Helpers
  import opened Kube
  import opened Api
  import opened Updater
  import opened Reload
  import opened Queue
  import opened Status
  import opened Controller
  import opened Fixpoint
  import opened Quiescence

  /** The steps that reconciles, the status worker and everybody else take, one target at a time. */
  datatype Event =
    | Handling(ctx: Context, target: Target, trigger: Trigger, n: nat)
    | ItemApplied(item: Item, now: int)
    | ConfigValidated(key: ObjectKey, plan: Plan, time: nat -> int)
    | Elsewhere(cluster: Cluster)

  function WithStatus(c: Cluster, key: ObjectKey, change: ConfigStatus -> ConfigStatus): Cluster
  {
    var i := FindConfig(c, key);
    if i < |c.configs| then PutConfigStatus(c, i, change(c.configs[i].status)) else c
  }

  function ApplyingItem(x: Platform, item: Item, now: int): ConfigStatus -> ConfigStatus
  {
    (s: ConfigStatus) => WithItem(x, s, item, now)
  }

  function ApplyingPlan(plan: Plan, time: nat -> int): ConfigStatus -> ConfigStatus
  {
    (s: ConfigStatus) => ApplyPlan(s, plan, time)
  }

  function Happen(x: Platform, c: Cluster, e: Event): Cluster
  {
    match e
    case Handling(ctx, target, trigger, n) => ReloadOne(ctx, c, target, trigger, n).cluster
    case ItemApplied(item, now) => WithStatus(c, item.config, ApplyingItem(x, item, now))
    case ConfigValidated(key, plan, time) => WithStatus(c, key, ApplyingPlan(plan, time))
    case Elsewhere(cluster) => cluster
  }

  function HappenAll(x: Platform, c: Cluster, events: seq<Event>): Cluster
  {
    if events == [] then c
    else
      var n := |events| - 1;
      Happen(x, HappenAll(x, c, events[..n]), events[n])
  }

  /** The outcome of handling a target in the state that the events before it leave. */
  function OutcomeAt(x: Platform, c: Cluster, events: seq<Event>, i: nat): Outcome
    requires i < |events| && events[i].Handling?
  {
    var e := events[i];
    ReloadOne(e.ctx, HappenAll(x, c, events[..i]), e.target, e.trigger, e.n).outcome
  }

  lemma HappenNext(x: Platform, c: Cluster, events: seq<Event>, i: nat)
    requires i < |events|
    ensures HappenAll(x, c, events[..i + 1]) == Happen(x, HappenAll(x, c, events[..i]), events[i])
  {
    assert events[..i + 1][..i] == events[..i];
  }

  /** executeReloads is such a run. */
  lemma {:induction false} ExecutionIsRun(x: Platform, ctx: Context, c: Cluster, targets: seq<Target>, trigger: Trigger,
                                          n: nat)
    requires n <= |targets|
    ensures var events := seq(n, i requires 0 <= i < n => Handling(ctx, targets[i], trigger, i));
            HappenAll(x, c, events) == HandledUpTo(ReloadHandler(ctx, trigger), c, targets, n).cluster
  {
    if n == 0 {
    } else {
      ExecutionIsRun(x, ctx, c, targets, trigger, n - 1);
      var events := seq(n, i requires 0 <= i < n => Handling(ctx, targets[i], trigger, i));
      assert events[..n - 1] == seq(n - 1, i requires 0 <= i < n - 1 => Handling(ctx, targets[i], trigger, i));
    }
  }

  /* ---- Time ---- */

  lemma TruncateMonotone(t: int, u: int)
    requires t <= u
    ensures Truncate(t) <= Truncate(u)
    ensures t - SECOND < Truncate(t) <= t
  {
  }

  function TickOf(e: Event): nat
    requires e.Handling?
  {
    e.ctx.tick + READINGS * e.n
  }

  /** When the event reads the clock for the pause check, the reload and the stamp. */
  function CheckTime(e: Event): int
    requires e.Handling?
  {
    e.ctx.Now(READINGS * e.n)
  }

  function ReloadTime(e: Event): int
    requires e.Handling?
  {
    e.ctx.Now(READINGS * e.n + 1)
  }

  function StampTime(e: Event): int
    requires e.Handling?
  {
    e.ctx.Now(READINGS * e.n + 2)
  }

  /** Targets are handled one after the other, with the same platform. */
  ghost predicate InSequence(x: Platform, events: seq<Event>)
  {
    && (forall i :: 0 <= i < |events| && events[i].Handling? ==> events[i].ctx.platform == x)
    && (forall i, j :: 0 <= i < j < |events| && events[i].Handling? && events[j].Handling? ==>
        TickOf(events[i]) + READINGS <= TickOf(events[j]))
  }

  lemma ClockOrder(x: Platform, events: seq<Event>, i: nat, j: nat)
    requires x.Lawful() && InSequence(x, events)
    requires i <= j < |events| && events[i].Handling? && events[j].Handling?
    ensures CheckTime(events[i]) <= ReloadTime(events[i]) <= StampTime(events[i])
    ensures StampTime(events[i]) <= StampTime(events[j])
    ensures i < j ==> StampTime(events[i]) <= CheckTime(events[j])
  {
  }

  /* ---- Annotated workloads: the rate of reloads ---- */

  /** The workload's last-reload annotation. */
  function StampOf(c: Cluster, key: WorkloadKey): Option<string>
  {
    var i := FindWorkload(c, key);
    if i < |c.workloads| && ANNOTATION_LAST_RELOAD in c.workloads[i].annotations
    then Some(c.workloads[i].annotations[ANNOTATION_LAST_RELOAD]) else None
  }

  /** The workload carries a stamp of this time or a later one. */
  ghost predicate StampedSince(x: Platform, c: Cluster, key: WorkloadKey, time: int)
  {
    StampOf(c, key).Some? && x.parseTime(StampOf(c, key).value).Some? &&
    x.parseTime(StampOf(c, key).value).value >= time
  }

  lemma RolledOutKeepsStamp(ctx: Context, c: Cluster, target: WorkloadKey, trigger: Trigger, strategy: string, n: nat,
                            now: int, key: WorkloadKey)
    ensures StampOf(RolledOut(ctx, c, target, trigger, strategy, n, now).cluster, key) == StampOf(c, key)
  {
    var c' := RolledOut(ctx, c, target, trigger, strategy, n, now).cluster;
    SameFirst(c.workloads, c'.workloads, (w: Workload) => w.key == key);
  }

  lemma StampedStamp(ctx: Context, c: Cluster, target: WorkloadKey, n: nat, now: int, key: WorkloadKey)
    ensures var stamp := StampOf(Stamped(ctx, c, target, n, now), key);
            stamp == StampOf(c, key) || stamp == Some(ctx.platform.formatTime(now))
    ensures ReadWorkload(c, target, ctx.Fault(ReadStamped(n))).Ok? && ctx.Fault(WriteStamped(n)) == None ==>
              StampOf(Stamped(ctx, c, target, n, now), target) == Some(ctx.platform.formatTime(now))
  {
    var c' := Stamped(ctx, c, target, n, now);
    SameFirst(c.workloads, c'.workloads, (w: Workload) => w.key == key);
    SameFirst(c.workloads, c'.workloads, (w: Workload) => w.key == target);
  }

  lemma TriggeredStamp(ctx: Context, c: Cluster, target: Target, trigger: Trigger, n: nat, t: nat, key: WorkloadKey)
    ensures var stamp := StampOf(Triggered(ctx, c, target, trigger, n, t).cluster, key);
            stamp == StampOf(c, key) || stamp == Some(ctx.platform.formatTime(ctx.Now(t + 1)))
  {
    if RolloutOf(target) == ROLLOUT_RESTART {
      assert Restarted(ctx, c, target.key, n).cluster.workloads == c.workloads;
    } else {
      TriggeredCases(ctx, c, target, trigger, n, t);
      RolledOutKeepsStamp(ctx, c, target.key, trigger, StrategyOf(target), n, ctx.Now(t), key);
      StampedStamp(ctx, RolledOut(ctx, c, target.key, trigger, StrategyOf(target), n, ctx.Now(t)).cluster, target.key,
                   n, ctx.Now(t + 1), key);
    }
  }

  /** An annotated workload on the rollout path, with a pause period, whose stamp can be written. */
  ghost predicate Stampable(ctx: Context, target: Target, n: nat)
  {
    target.config == None && target.pausePeriod != "" && RolloutOf(target) != ROLLOUT_RESTART &&
    ctx.Fault(ReadStamped(n)) == None && ctx.Fault(WriteStamped(n)) == None
  }

  ghost predicate WillStamp(e: Event)
  {
    e.Handling? && Stampable(e.ctx, e.target, e.n)
  }

  lemma StampedExactly(ctx: Context, c: Cluster, key: WorkloadKey, n: nat, now: int)
    ensures StampOf(Stamped(ctx, c, key, n, now), key) ==
            if ReadWorkload(c, key, ctx.Fault(ReadStamped(n))).Ok? && ctx.Fault(WriteStamped(n)) == None
            then Some(ctx.platform.formatTime(now)) else StampOf(c, key)
  {
    StampedStamp(ctx, c, key, n, now, key);
  }

  lemma RolledOutIsThere(ctx: Context, c: Cluster, key: WorkloadKey, trigger: Trigger, strategy: string, n: nat,
                         now: int)
    requires RolledOut(ctx, c, key, trigger, strategy, n, now).err == None
    ensures ReadWorkload(RolledOut(ctx, c, key, trigger, strategy, n, now).cluster, key, None).Ok?
  {
    var d := RolledOut(ctx, c, key, trigger, strategy, n, now).cluster;
    RolledOutIsSame(ctx, c, key, trigger, strategy, n, now);
    SameReads(c, d);
    assert ReadWorkload(d, key, None) == ReadWorkload(c, key, None);
  }

  lemma TriggeredStamps(ctx: Context, c: Cluster, target: Target, trigger: Trigger, n: nat, t: nat)
    ensures var done := Triggered(ctx, c, target, trigger, n, t);
            StampOf(done.cluster, target.key) ==
            if done.err == None && Stampable(ctx, target, n)
            then Some(ctx.platform.formatTime(ctx.Now(t + 1))) else StampOf(c, target.key)
  {
    var done := Triggered(ctx, c, target, trigger, n, t);
    if RolloutOf(target) == ROLLOUT_RESTART {
      assert Restarted(ctx, c, target.key, n).cluster.workloads == c.workloads;
    } else if IsWorkloadKind(target.key.kind) {
      var rolled := RolledOut(ctx, c, target.key, trigger, StrategyOf(target), n, ctx.Now(t));
      RolledOutKeepsStamp(ctx, c, target.key, trigger, StrategyOf(target), n, ctx.Now(t), target.key);
      if rolled.err == None {
        RolledOutIsThere(ctx, c, target.key, trigger, StrategyOf(target), n, ctx.Now(t));
        StampedExactly(ctx, rolled.cluster, target.key, n, ctx.Now(t + 1));
      }
    }
  }

  lemma ReloadOneStamps(ctx: Context, c: Cluster, target: Target, trigger: Trigger, n: nat, will: bool, time: int)
    requires will == Stampable(ctx, target, n) && time == ctx.Now(READINGS * n + 2)
    ensures var step := ReloadOne(ctx, c, target, trigger, n);
            StampOf(step.cluster, target.key) ==
            if step.outcome.Reloaded? && will then Some(ctx.platform.formatTime(time)) else StampOf(c, target.key)
  {
    var step, done := ReloadOne(ctx, c, target, trigger, n), Triggered(ctx, c, target, trigger, n, READINGS * n + 1);
    ReloadOneCases(ctx, c, target, trigger, n);
    if Attempted(step.outcome) {
      AttemptTriggers(ctx, c, target, trigger, n);
      TriggeredStamps(ctx, c, target, trigger, n, READINGS * n + 1);
      assert step.outcome.Reloaded? <==> done.err == None;
    }
  }

  /** Exactly which events stamp their workload, and so start a pause of an annotated one: successful reloads on the
      rollout path whose stamp can be written. Any other event leaves the stamp, and a pause it started, as it was. */
  lemma StampsExactly(c: Cluster, e: Event)
    requires e.Handling?
    ensures var step := ReloadOne(e.ctx, c, e.target, e.trigger, e.n);
            StampOf(step.cluster, e.target.key) ==
            if step.outcome.Reloaded? && WillStamp(e) then Some(e.ctx.platform.formatTime(StampTime(e)))
            else StampOf(c, e.target.key)
  {
    ReloadOneStamps(e.ctx, c, e.target, e.trigger, e.n, WillStamp(e), StampTime(e));
  }

  lemma ReloadStamps(c: Cluster, e: Event)
    requires WillStamp(e) && e.ctx.platform.Lawful()
    ensures var step := ReloadOne(e.ctx, c, e.target, e.trigger, e.n);
            step.outcome.Reloaded? ==> StampedSince(e.ctx.platform, step.cluster, e.target.key, Truncate(StampTime(e)))
  {
    StampsExactly(c, e);
  }

  lemma HandlingKeepsStamp(c: Cluster, e: Event, key: WorkloadKey, time: int)
    requires e.Handling? && e.ctx.platform.Lawful()
    requires StampedSince(e.ctx.platform, c, key, time) && time <= Truncate(StampTime(e))
    ensures StampedSince(e.ctx.platform, ReloadOne(e.ctx, c, e.target, e.trigger, e.n).cluster, key, time)
  {
    ReloadOneCases(e.ctx, c, e.target, e.trigger, e.n);
    TriggeredStamp(e.ctx, c, Refreshed(e.ctx, c, e.target, e.n), e.trigger, e.n, READINGS * e.n + 1, key);
    var stamp := StampOf(ReloadOne(e.ctx, c, e.target, e.trigger, e.n).cluster, key);
    assert stamp == StampOf(c, key) || stamp == Some(e.ctx.platform.formatTime(StampTime(e)));
  }

  /** On the restart path no stamp is written: a reload there starts no pause, and leaves every stamp as it was. */
  lemma RestartLeavesNoStamp(c: Cluster, e: Event, key: WorkloadKey)
    requires e.Handling? && RolloutOf(e.target) == ROLLOUT_RESTART
    ensures StampOf(ReloadOne(e.ctx, c, e.target, e.trigger, e.n).cluster, key) == StampOf(c, key)
  {
    ReloadOneCases(e.ctx, c, e.target, e.trigger, e.n);
    assert Restarted(e.ctx, c, e.target.key, e.n).cluster.workloads == c.workloads;
  }

  /** A workload stamped since some time is not even attempted until its pause period has passed from then. */
  lemma AttemptWaits(c: Cluster, e: Event, time: int, d: int)
    requires e.Handling? && e.target.config == None && e.target.pausePeriod != ""
    requires e.ctx.platform.parseDuration(e.target.pausePeriod) == Some(d)
    requires StampedSince(e.ctx.platform, c, e.target.key, time)
    requires Attempted(ReloadOne(e.ctx, c, e.target, e.trigger, e.n).outcome)
    ensures CheckTime(e) >= time + d
  {
  }

  /** Exactly: an annotated workload that can be read is attempted unless its stamp plus the pause period is still
      ahead. */
  lemma AnnotatedPauseIsExact(c: Cluster, e: Event, d: int)
    requires e.Handling? && e.target.config == None && e.target.pausePeriod != ""
    requires e.ctx.platform.parseDuration(e.target.pausePeriod) == Some(d)
    requires ReadWorkload(c, e.target.key, e.ctx.Fault(ReadPaused(e.n))).Ok?
    ensures var stamp := StampOf(c, e.target.key);
            var lastReload := if stamp.Some? then e.ctx.platform.parseTime(stamp.value) else None;
            Attempted(ReloadOne(e.ctx, c, e.target, e.trigger, e.n).outcome) <==>
              !(lastReload.Some? && CheckTime(e) < lastReload.value + d)
  {
  }

  /** Whatever happens elsewhere leaves the stamp alone. */
  ghost predicate StampsLeftAlone(x: Platform, c: Cluster, events: seq<Event>, key: WorkloadKey)
  {
    events == [] ||
    var n := |events| - 1;
    StampsLeftAlone(x, c, events[..n], key) &&
    (events[n].Elsewhere? ==> StampOf(events[n].cluster, key) == StampOf(HappenAll(x, c, events[..n]), key))
  }

  lemma {:induction false} StampsLeftAloneBefore(x: Platform, c: Cluster, events: seq<Event>, j: nat, key: WorkloadKey)
    requires j <= |events| && StampsLeftAlone(x, c, events, key)
    ensures StampsLeftAlone(x, c, events[..j], key)
  {
    if j == |events| {
      assert events[..j] == events;
    } else {
      var n := |events| - 1;
      StampsLeftAloneBefore(x, c, events[..n], j, key);
      assert events[..n][..j] == events[..j];
    }
  }

  lemma StatusKeepsStamp(c: Cluster, key: ObjectKey, change: ConfigStatus -> ConfigStatus, workload: WorkloadKey)
    ensures StampOf(WithStatus(c, key, change), workload) == StampOf(c, workload)
  {
  }

  lemma StampStep(x: Platform, c: Cluster, e: Event, key: WorkloadKey, time: int)
    requires x.Lawful() && StampedSince(x, c, key, time)
    requires e.Handling? ==> e.ctx.platform == x && time <= Truncate(StampTime(e))
    requires e.Elsewhere? ==> StampOf(e.cluster, key) == StampOf(c, key)
    ensures StampedSince(x, Happen(x, c, e), key, time)
  {
    match e
    case Handling(_, _, _, _) => HandlingKeepsStamp(c, e, key, time);
    case ItemApplied(item, now) => StatusKeepsStamp(c, item.config, ApplyingItem(x, item, now), key);
    case ConfigValidated(config, plan, t) => StatusKeepsStamp(c, config, ApplyingPlan(plan, t), key);
    case Elsewhere(_) =>
  }

  lemma StampStarts(x: Platform, c: Cluster, events: seq<Event>, i: nat)
    requires x.Lawful() && InSequence(x, events)
    requires i < |events| && WillStamp(events[i]) && OutcomeAt(x, c, events, i).Reloaded?
    ensures StampedSince(x, HappenAll(x, c, events[..i + 1]), events[i].target.key, Truncate(StampTime(events[i])))
  {
    HappenNext(x, c, events, i);
    ReloadStamps(HappenAll(x, c, events[..i]), events[i]);
  }

  lemma {:induction false} StampLasts(x: Platform, c: Cluster, events: seq<Event>, from: nat, key: WorkloadKey,
                                      time: int)
    requires x.Lawful() && from <= |events|
    requires StampedSince(x, HappenAll(x, c, events[..from]), key, time)
    requires forall k :: from <= k < |events| && events[k].Handling? ==>
             events[k].ctx.platform == x && time <= Truncate(StampTime(events[k]))
    requires StampsLeftAlone(x, c, events, key)
    ensures StampedSince(x, HappenAll(x, c, events), key, time)
  {
    if |events| == from {
      assert events[..from] == events;
    } else {
      var n := |events| - 1;
      assert events[..n][..from] == events[..from];
      StampLasts(x, c, events[..n], from, key, time);
      StampStep(x, HappenAll(x, c, events[..n]), events[n], key, time);
    }
  }

  lemma LaterStamps(x: Platform, events: seq<Event>, i: nat)
    requires x.Lawful() && InSequence(x, events)
    requires i < |events| && events[i].Handling?
    ensures forall k :: i < k < |events| && events[k].Handling? ==>
            Truncate(StampTime(events[i])) <= Truncate(StampTime(events[k]))
  {
  }

  lemma StampedUntil(x: Platform, c: Cluster, events: seq<Event>, i: nat, j: nat)
    requires x.Lawful() && InSequence(x, events)
    requires i < j <= |events| && WillStamp(events[i])
    requires StampsLeftAlone(x, c, events, events[i].target.key)
    ensures OutcomeAt(x, c, events, i).Reloaded? ==>
              StampedSince(x, HappenAll(x, c, events[..j]), events[i].target.key, Truncate(StampTime(events[i])))
  {
    if OutcomeAt(x, c, events, i).Reloaded? {
      StampStarts(x, c, events, i);
      LaterStamps(x, events, i);
      StampsLeftAloneBefore(x, c, events, j, events[i].target.key);
      assert events[..j][..i + 1] == events[..i + 1];
      StampLasts(x, c, events[..j], i + 1, events[i].target.key, Truncate(StampTime(events[i])));
    }
  }

  lemma Apart(x: Platform, events: seq<Event>, i: nat, j: nat, d: int)
    requires x.Lawful() && InSequence(x, events)
    requires i < j < |events| && events[i].Handling? && events[j].Handling?
    requires CheckTime(events[j]) >= Truncate(StampTime(events[i])) + d
    ensures ReloadTime(events[j]) - ReloadTime(events[i]) > d - SECOND
  {
    ClockOrder(x, events, i, i);
    ClockOrder(x, events, j, j);
    TruncateMonotone(ReloadTime(events[i]), StampTime(events[i]));
  }

  /** A successful reload of an annotated workload and any later attempt to reload it are more than its pause period
      less one second apart, over any run in which the stamp of the first was written and nobody else touches the
      stamp: the stamp has whole seconds. */
  lemma ReloadsAreSpaced(x: Platform, c: Cluster, events: seq<Event>, i: nat, j: nat, d: int)
    requires x.Lawful() && InSequence(x, events)
    requires i < j < |events| && WillStamp(events[i]) && events[j].Handling?
    requires OutcomeAt(x, c, events, i).Reloaded?
    requires events[j].target.key == events[i].target.key && events[j].target.config == None
    requires events[j].target.pausePeriod != "" && x.parseDuration(events[j].target.pausePeriod) == Some(d)
    requires StampsLeftAlone(x, c, events, events[i].target.key)
    ensures Attempted(OutcomeAt(x, c, events, j)) ==> ReloadTime(events[j]) - ReloadTime(events[i]) > d - SECOND
  {
    StampedUntil(x, c, events, i, j);
    if Attempted(OutcomeAt(x, c, events, j)) {
      AttemptWaits(HappenAll(x, c, events[..j]), events[j], Truncate(StampTime(events[i])), d);
      Apart(x, events, i, j, d);
    }
  }

  /* ---- CRD targets: the pause recorded in the status ---- */

  /** The config's status records this end of a pause for the target. */
  ghost predicate PauseRecorded(c: Cluster, config: ObjectKey, target: WorkloadKey, until: int)
  {
    var i := FindConfig(c, config);
    i < |c.configs| && PausedUntil(c.configs[i].status, target) == Some(until)
  }

  /** A CRD target whose recorded pause has not ended is not attempted, provided its config can be fetched. */
  lemma PauseHolds(c: Cluster, e: Event, until: int)
    requires e.Handling? && e.target.config.Some? && e.target.pausePeriod != ""
    requires e.ctx.Fault(RefreshConfig(e.n)) == None
    requires PauseRecorded(c, e.target.config.value.key, e.target.key, until) && CheckTime(e) < until
    ensures !Attempted(ReloadOne(e.ctx, c, e.target, e.trigger, e.n).outcome)
    ensures ReloadOne(e.ctx, c, e.target, e.trigger, e.n).cluster == c
  {
  }

  lemma PausedExactly(s: ConfigStatus, target: WorkloadKey, now: int)
    requires UniqueTargets(s)
    ensures PausedInStatus(s, target, now) <==> PausedUntil(s, target).Some? && now < PausedUntil(s, target).value
  {
  }

  /** Exactly: a CRD target whose config can be fetched, and whose status has one entry for each target, is attempted
      unless the recorded end of its pause is still ahead. */
  lemma ConfigPauseIsExact(c: Cluster, e: Event, d: int)
    requires e.Handling? && e.target.config.Some? && e.target.pausePeriod != ""
    requires e.ctx.platform.parseDuration(e.target.pausePeriod) == Some(d)
    requires e.ctx.Fault(RefreshConfig(e.n)) == None
    requires var i := FindConfig(c, e.target.config.value.key); i < |c.configs| && UniqueTargets(c.configs[i].status)
    ensures var status := c.configs[FindConfig(c, e.target.config.value.key)].status;
            Attempted(ReloadOne(e.ctx, c, e.target, e.trigger, e.n).outcome) <==>
              !(PausedUntil(status, e.target.key).Some? && CheckTime(e) < PausedUntil(status, e.target.key).value)
  {
    var i := FindConfig(c, e.target.config.value.key);
    PausedExactly(c.configs[i].status, e.target.key, CheckTime(e));
    assert Refreshed(e.ctx, c, e.target, e.n).config == Some(c.configs[i]);
  }

  lemma WithStatusConfigs(c: Cluster, key: ObjectKey, change: ConfigStatus -> ConfigStatus, config: ObjectKey)
    ensures var i := FindConfig(c, config);
            var c' := WithStatus(c, key, change);
            && FindConfig(c', config) == i && |c'.configs| == |c.configs|
            && (i < |c.configs| ==>
                  c'.configs[i].status == if key == config then Persisted(change(c.configs[i].status))
                    else c.configs[i].status)
  {
    var c' := WithStatus(c, key, change);
    SameFirst(c.configs, c'.configs, (x: ReloaderConfig) => x.key == config);
  }

  /** A success item with a pause period records its end, in whole seconds. */
  lemma ItemRecords(x: Platform, c: Cluster, item: Item, now: int, d: int)
    requires item.TargetItem? && item.errorMsg == "" && item.target.pausePeriod != ""
    requires x.parseDuration(item.target.pausePeriod) == Some(d)
    requires FindConfig(c, item.config) < |c.configs|
    ensures PauseRecorded(Happen(x, c, ItemApplied(item, now)), item.config, item.target.key, Truncate(now + d))
  {
    WithStatusConfigs(c, item.config, ApplyingItem(x, item, now), item.config);
    ItemCountsOnce(x, c.configs[FindConfig(c, item.config)].status, item, now, item.target.key);
  }

  lemma OtherItemKeepsRecord(x: Platform, c: Cluster, item: Item, now: int, config: ObjectKey, target: WorkloadKey,
                             until: int)
    requires PauseRecorded(c, config, target, until) && Truncate(until) == until
    requires !(item.config == config && Succeeds(item, target))
    ensures PauseRecorded(Happen(x, c, ItemApplied(item, now)), config, target, until)
  {
    WithStatusConfigs(c, item.config, ApplyingItem(x, item, now), config);
    ItemCountsOnce(x, c.configs[FindConfig(c, config)].status, item, now, target);
  }

  lemma ValidationKeepsRecord(x: Platform, c: Cluster, key: ObjectKey, plan: Plan, time: nat -> int, config: ObjectKey,
                              target: WorkloadKey, until: int)
    requires PauseRecorded(c, config, target, until) && Truncate(until) == until
    ensures PauseRecorded(Happen(x, c, ConfigValidated(key, plan, time)), config, target, until)
  {
    WithStatusConfigs(c, key, ApplyingPlan(plan, time), config);
    PersistedEntry(ApplyPlan(c.configs[FindConfig(c, config)].status, plan, time), target);
  }

  lemma HandlingKeepsRecord(c: Cluster, e: Event, config: ObjectKey, target: WorkloadKey, until: int)
    requires e.Handling? && PauseRecorded(c, config, target, until)
    ensures PauseRecorded(ReloadOne(e.ctx, c, e.target, e.trigger, e.n).cluster, config, target, until)
  {
    ReloadOneCases(e.ctx, c, e.target, e.trigger, e.n);
    TriggeredKeepsObjects(e.ctx, c, Refreshed(e.ctx, c, e.target, e.n), e.trigger, e.n, READINGS * e.n + 1);
  }

  /** The event is neither a success item for this target and config nor an edit of what the status says about it. */
  ghost predicate LeavesRecord(x: Platform, c: Cluster, e: Event, config: ObjectKey, target: WorkloadKey)
  {
    match e
    case ItemApplied(item, _) => !(item.config == config && Succeeds(item, target))
    case Elsewhere(cluster) => forall until :: PauseRecorded(c, config, target, until) ==>
        PauseRecorded(cluster, config, target, until)
    case _ => true
  }

  lemma RecordStep(x: Platform, c: Cluster, e: Event, config: ObjectKey, target: WorkloadKey, until: int)
    requires PauseRecorded(c, config, target, until) && Truncate(until) == until
    requires LeavesRecord(x, c, e, config, target)
    ensures PauseRecorded(Happen(x, c, e), config, target, until)
  {
    match e
    case Handling(_, _, _, _) => HandlingKeepsRecord(c, e, config, target, until);
    case ItemApplied(item, now) => OtherItemKeepsRecord(x, c, item, now, config, target, until);
    case ConfigValidated(key, plan, time) => ValidationKeepsRecord(x, c, key, plan, time, config, target, until);
    case Elsewhere(_) =>
  }

  /** Every event after the first ones leaves the record alone. */
  ghost predicate RecordLeftAlone(x: Platform, c: Cluster, events: seq<Event>, from: nat, config: ObjectKey,
                                  target: WorkloadKey)
  {
    |events| <= from ||
    var n := |events| - 1;
    RecordLeftAlone(x, c, events[..n], from, config, target) &&
    LeavesRecord(x, HappenAll(x, c, events[..n]), events[n], config, target)
  }

  lemma {:induction false} RecordLeftAloneBefore(x: Platform, c: Cluster, events: seq<Event>, from: nat, j: nat,
                                                 config: ObjectKey, target: WorkloadKey)
    requires from <= j <= |events| && RecordLeftAlone(x, c, events, from, config, target)
    ensures RecordLeftAlone(x, c, events[..j], from, config, target)
  {
    if j == |events| {
      assert events[..j] == events;
    } else {
      var n := |events| - 1;
      RecordLeftAloneBefore(x, c, events[..n], from, j, config, target);
      assert events[..n][..j] == events[..j];
    }
  }

  lemma {:induction false} RecordLasts(x: Platform, c: Cluster, events: seq<Event>, from: nat,
                                       config: ObjectKey, target: WorkloadKey, until: int)
    requires from <= |events| && Truncate(until) == until
    requires PauseRecorded(HappenAll(x, c, events[..from]), config, target, until)
    requires RecordLeftAlone(x, c, events, from, config, target)
    ensures PauseRecorded(HappenAll(x, c, events), config, target, until)
  {
    if |events| == from {
      assert events[..from] == events;
    } else {
      var n := |events| - 1;
      assert events[..n][..from] == events[..from];
      RecordLasts(x, c, events[..n], from, config, target, until);
      RecordStep(x, HappenAll(x, c, events[..n]), events[n], config, target, until);
    }
  }

  /** The event is a success item with pause period d for a config that exists. */
  ghost predicate StartsPause(x: Platform, c: Cluster, e: Event, d: int)
  {
    && e.ItemApplied? && e.item.TargetItem? && e.item.errorMsg == "" && e.item.target.pausePeriod != ""
    && x.parseDuration(e.item.target.pausePeriod) == Some(d)
    && FindConfig(c, e.item.config) < |c.configs|
  }

  lemma PauseStarts(x: Platform, c: Cluster, e: Event, d: int)
    requires StartsPause(x, c, e, d)
    ensures PauseRecorded(Happen(x, c, e), e.item.config, e.item.target.key, Truncate(e.now + d))
    ensures Truncate(Truncate(e.now + d)) == Truncate(e.now + d)
  {
    ItemRecords(x, c, e.item, e.now, d);
  }

  lemma PauseStartsAt(x: Platform, c: Cluster, events: seq<Event>, i: nat, d: int)
    requires i < |events| && StartsPause(x, HappenAll(x, c, events[..i]), events[i], d)
    ensures var until := Truncate(events[i].now + d);
            PauseRecorded(HappenAll(x, c, events[..i + 1]), events[i].item.config, events[i].item.target.key, until) &&
            Truncate(until) == until
  {
    HappenNext(x, c, events, i);
    PauseStarts(x, HappenAll(x, c, events[..i]), events[i], d);
  }

  lemma StartedPauseLasts(x: Platform, c: Cluster, events: seq<Event>, i: nat, j: nat, d: int)
    requires i < j <= |events| && StartsPause(x, HappenAll(x, c, events[..i]), events[i], d)
    requires RecordLeftAlone(x, c, events, i + 1, events[i].item.config, events[i].item.target.key)
    ensures PauseRecorded(HappenAll(x, c, events[..j]), events[i].item.config, events[i].item.target.key,
                          Truncate(events[i].now + d))
  {
    PauseStartsAt(x, c, events, i, d);
    RecordLeftAloneBefore(x, c, events, i + 1, j, events[i].item.config, events[i].item.target.key);
    assert events[..j][..i + 1] == events[..i + 1];
    RecordLasts(x, c, events[..j], i + 1, events[i].item.config, events[i].item.target.key,
                Truncate(events[i].now + d));
  }

  /** The event handles this target of this config, with a pause period set and the config readable. */
  ghost predicate HandlesTarget(e: Event, config: ObjectKey, target: WorkloadKey)
  {
    e.Handling? && e.target.key == target && e.target.config.Some? && e.target.config.value.key == config &&
    e.target.pausePeriod != "" && e.ctx.Fault(RefreshConfig(e.n)) == None
  }

  /** Once a success item with period d is applied at some time, then over any number of passes, validations and items
      for other targets, no pass that can fetch the config and finds a pause period still set reloads that target before
      the recorded end: that time plus d, in whole seconds. */
  lemma PauseWindow(x: Platform, c: Cluster, events: seq<Event>, i: nat, j: nat, d: int)
    requires i < j < |events| && StartsPause(x, HappenAll(x, c, events[..i]), events[i], d)
    requires RecordLeftAlone(x, c, events, i + 1, events[i].item.config, events[i].item.target.key)
    requires HandlesTarget(events[j], events[i].item.config, events[i].item.target.key)
    requires CheckTime(events[j]) < Truncate(events[i].now + d)
    ensures !Attempted(OutcomeAt(x, c, events, j))
  {
    StartedPauseLasts(x, c, events, i, j, d);
    PauseHolds(HappenAll(x, c, events[..j]), events[j], Truncate(events[i].now + d));
  }
}
