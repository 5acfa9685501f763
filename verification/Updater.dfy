/** internal/pkg/workload/updater.go: reloading one workload, and deciding whether it is paused. */
module Updater {
  import opened Common
  import opened Helpers
  import opened Kube
  import opened Api
  import opened Template

  /** What calls for a reload: a resource with new content, or a deleted one. */
  datatype Trigger =
    | Changed(kind: string, name: string, namespace: string, hash: string)
    | Deleted(kind: string, name: string)

  /** A call's effect on the cluster and the error it returns. */
  datatype Effect = Effect(cluster: Cluster, err: Option<string>)

  /* ---- Rollout: rewrite the pod template ---- */

  /** The strategy switch of applyReloadStrategy and applyDeleteStrategy. */
  function RewriteFor(ctx: Context, trigger: Trigger, strategy: string, now: int): Result<Rewrite>
  {
    var timestamp := ctx.platform.formatTime(now);
    if strategy == RELOAD_ENV_VARS then
      match trigger {
        case Changed(kind, name, _, hash) => Ok(ReloadEnv(kind, name, hash))
        case Deleted(kind, name) => Ok(DeleteEnv(kind, name, timestamp))
      }
    else if strategy == RELOAD_ANNOTATIONS then
      match trigger {
        case Changed(kind, name, namespace, hash) =>
          Ok(ReloadAnnotation(timestamp, ctx.platform.sourceJson(kind, name, namespace, hash)))
        case Deleted(_, _) => Ok(DeleteAnnotation(timestamp))
      }
    else Err("unknown reload strategy: " + strategy)
  }

  /** What a reload or delete leaves to be seen in the template, by strategy: a variable that holds the hash or says
      deleted, with the environment otherwise used as before; or the time and source of the reload as annotations. */
  lemma RewriteLeaves(ctx: Context, t: PodTemplate, trigger: Trigger, strategy: string, now: int)
    requires RewriteFor(ctx, trigger, strategy, now).Ok?
    requires Apply(t, RewriteFor(ctx, trigger, strategy, now).value).Ok?
    ensures var t' := Apply(t, RewriteFor(ctx, trigger, strategy, now).value).value;
            var timestamp := ctx.platform.formatTime(now);
            var source := FindEntry(t'.annotations, "reloader.stakater.com/last-reloaded-from");
            && (strategy == "env-vars" || strategy == "annotations")
            && (strategy == "env-vars" ==>
                  FindEntry(t'.annotations, "reloader.stakater.com/last-reload") ==
                    FindEntry(t.annotations, "reloader.stakater.com/last-reload") &&
                  match trigger
                  case Changed(kind, name, _, hash) =>
                    LookupEnv(FirstEnv(t'), GetEnvVarName(kind, name)) == Some(hash) && t'.annotations == t.annotations
                  case Deleted(kind, name) =>
                    LookupEnv(FirstEnv(t'), GetEnvVarName(kind, name)) == Some("deleted-" + timestamp) &&
                    source == None)
            && (strategy == "annotations" ==>
                  t'.spec == t.spec &&
                  FindEntry(t'.annotations, "reloader.stakater.com/last-reload") == Some(timestamp) &&
                  source == match trigger
                            case Changed(kind, name, namespace, hash) => Some(ctx.platform.sourceJson(kind, name,
                                  namespace, hash))
                            case Deleted(_, _) => None)
  {
    var rewrite := RewriteFor(ctx, trigger, strategy, now).value;
    assert ANNOTATION_LAST_RELOAD != ANNOTATION_LAST_RELOADED_FROM by {
      assert |ANNOTATION_LAST_RELOAD| != |ANNOTATION_LAST_RELOADED_FROM|;
    }
    match Assignment(rewrite)
    case None =>
    case Some((name, value)) => PutThenLookup(FirstEnv(t), name, value, name);
  }

  function RolledOut(ctx: Context, c: Cluster, key: WorkloadKey, trigger: Trigger, strategy: string, n: nat,
                     now: int): Effect
  {
    match ReadWorkload(c, key, ctx.Fault(ReadReloaded(n)))
    case Err(m) => Effect(c, Some("failed to get " + key.kind + ": " + m))
    case Ok(i) =>
      match RewriteFor(ctx, trigger, strategy, now)
      case Err(m) => Effect(c, Some(m))
      case Ok(rewrite) =>
        match Apply(c.workloads[i].template, rewrite)
        case Err(m) => Effect(c, Some(m))
        case Ok(template) =>
          match ctx.Fault(WriteReloaded(n))
          case Some(m) => Effect(c, Some("failed to update " + key.kind + ": " + m))
          case None => Effect(PutWorkload(c, i, c.workloads[i].(template := template)), None)
  }

  /** applyReloadStrategy and applyDeleteStrategy on a template in memory. */
  method ApplyStrategy(ctx: Context, template: PodTemplateSpec, trigger: Trigger, strategy: string, now: int)
    returns (err: Option<string>)
    modifies template
    ensures match RewriteFor(ctx, trigger, strategy, now)
            case Err(m) => err == Some(m) && template.Value() == old(template.Value())
            case Ok(rewrite) =>
              match Apply(old(template.Value()), rewrite)
              case Ok(t) => err == None && template.Value() == t
              case Err(m) => err == Some(m) && template.Value() == old(template.Value())
  {
    var timestamp := ctx.platform.formatTime(now);
    err := None;
    if strategy == RELOAD_ENV_VARS {
      match trigger {
        case Changed(kind, name, _, hash) => err := template.ApplyEnvVarsStrategy(kind, name, hash);
        case Deleted(kind, name) => err := template.ApplyDeleteEnvVarsStrategy(kind, name, timestamp);
      }
    } else if strategy == RELOAD_ANNOTATIONS {
      match trigger {
        case Changed(kind, name, namespace, hash) =>
          template.ApplyAnnotationsStrategy(timestamp, ctx.platform.sourceJson(kind, name, namespace, hash));
        case Deleted(_, _) => template.ApplyDeleteAnnotationsStrategy(timestamp);
      }
    } else {
      err := Some("unknown reload strategy: " + strategy);
    }
  }

  method ReloadWorkload(ctx: Context, api: ApiServer, key: WorkloadKey, trigger: Trigger, strategy: string, n: nat,
                        now: int)
    returns (err: Option<string>)
    modifies api
    ensures Effect(api.state, err) == RolledOut(ctx, old(api.state), key, trigger, strategy, n, now)
  {
    var got := api.GetWorkload(key, ctx.Fault(ReadReloaded(n)));
    if got.Err? {
      return Some("failed to get " + key.kind + ": " + got.message);
    }
    var template := new PodTemplateSpec(got.value.template);
    err := ApplyStrategy(ctx, template, trigger, strategy, now);
    if err.Some? {
      return;
    }
    err := api.UpdateWorkload(got.value.(template := template.Value()), ctx.Fault(WriteReloaded(n)));
    if err.Some? {
      return Some("failed to update " + key.kind + ": " + err.value);
    }
  }

  /* ---- Restart: delete the pods ---- */

  function Restarted(ctx: Context, c: Cluster, key: WorkloadKey, n: nat): Effect
  {
    match ReadWorkload(c, key, ctx.Fault(ReadReloaded(n)))
    case Err(m) => Effect(c, Some(m))
    case Ok(i) =>
      match c.workloads[i].matchLabels
      case None => Effect(c, Some("workload has no label selector"))
      case Some(matchLabels) =>
        match ctx.Fault(ListPods(n))
        case Some(m) => Effect(c, Some("failed to list pods: " + m))
        case None =>
          var selected := set p | p in c.pods && Selects(p, c.pods[p], key.namespace, matchLabels);
          var deleted := set p | p in selected && ctx.Fault(DeletePod(n, p)).None?;
          Effect(c.(pods := c.pods - deleted, writes := c.writes + |deleted|),
                 if selected != {} && deleted == {} then Some("failed to delete any pods") else None)
  }

  method RestartWorkloadPods(ctx: Context, api: ApiServer, key: WorkloadKey, n: nat) returns (err: Option<string>)
    modifies api
    ensures Effect(api.state, err) == Restarted(ctx, old(api.state), key, n)
  {
    var got := api.GetWorkload(key, ctx.Fault(ReadReloaded(n)));
    if got.Err? {
      return Some(got.message);
    }
    if got.value.matchLabels.None? {
      return Some("workload has no label selector");
    }
    if ctx.Fault(ListPods(n)).Some? {
      return Some("failed to list pods: " + ctx.Fault(ListPods(n)).value);
    }
    ghost var before := api.state;
    var pods := api.ListPods(key.namespace, got.value.matchLabels.value);
    if pods == {} {
      assert (set p | p in pods && ctx.Fault(DeletePod(n, p)).None?) == {};
      return None;
    }
    var deletedCount := 0;
    var rest := pods;
    ghost var deleted: set<ObjectKey> := {};
    while rest != {}
      invariant rest <= pods && pods <= before.pods.Keys
      invariant deleted == set p | p in pods - rest && ctx.Fault(DeletePod(n, p)).None?
      invariant deletedCount == |deleted|
      invariant api.state == before.(pods := before.pods - deleted, writes := before.writes + |deleted|)
      decreases rest
    {
      var pod :| pod in rest;
      var failed := api.DeletePod(pod, ctx.Fault(DeletePod(n, pod)));
      rest := rest - {pod};
      if failed.None? {
        deletedCount := deletedCount + 1;
        assert before.pods - deleted - {pod} == before.pods - (deleted + {pod});
        deleted := deleted + {pod};
      }
    }
    assert pods - rest == pods;
    assert deleted == set p | p in pods && ctx.Fault(DeletePod(n, p)).None?;
    if deletedCount == 0 {
      return Some("failed to delete any pods");
    }
    return None;
  }

  /* ---- Triggering a reload ---- */

  /** setLastReloadAnnotation; its errors are only logged. */
  function Stamped(ctx: Context, c: Cluster, key: WorkloadKey, n: nat, now: int): Cluster
  {
    match ReadWorkload(c, key, ctx.Fault(ReadStamped(n)))
    case Err(_) => c
    case Ok(i) =>
      if ctx.Fault(WriteStamped(n)).Some? then c
      else
        var w := c.workloads[i];
        PutWorkload(c, i, w.(annotations := w.annotations[ANNOTATION_LAST_RELOAD := ctx.platform.formatTime(now)]))
  }

  method SetLastReloadAnnotation(ctx: Context, api: ApiServer, key: WorkloadKey, n: nat, now: int)
    modifies api
    ensures api.state == Stamped(ctx, old(api.state), key, n, now)
  {
    var got := api.GetWorkload(key, ctx.Fault(ReadStamped(n)));
    if got.Err? {
      return;
    }
    var annotations := got.value.annotations;
    annotations := annotations[ANNOTATION_LAST_RELOAD := ctx.platform.formatTime(now)];
    var _ := api.UpdateWorkload(got.value.(annotations := annotations), ctx.Fault(WriteStamped(n)));
  }

  function RolloutOf(target: Target): string
  {
    if target.rolloutStrategy == "" then ROLLOUT_ROLLOUT else target.rolloutStrategy
  }

  function StrategyOf(target: Target): string
  {
    if target.reloadStrategy == "" then RELOAD_ENV_VARS else target.reloadStrategy
  }

  /** TriggerReload and TriggerDeleteReload for the n-th target, with the clock at reading t and after. */
  function Triggered(ctx: Context, c: Cluster, target: Target, trigger: Trigger, n: nat, t: nat): Effect
  {
    if RolloutOf(target) == ROLLOUT_RESTART then Restarted(ctx, c, target.key, n)
    else if !IsWorkloadKind(target.key.kind) then Effect(c, Some("unsupported workload kind: " + target.key.kind))
    else
      var done := RolledOut(ctx, c, target.key, trigger, StrategyOf(target), n, ctx.Now(t));
      if done.err == None && target.config == None && target.pausePeriod != "" then
        Effect(Stamped(ctx, done.cluster, target.key, n, ctx.Now(t + 1)), None)
      else done
  }

  /** On the rollout path: nothing, a rewritten template, or that and a stamp. */
  lemma TriggeredCases(ctx: Context, c: Cluster, target: Target, trigger: Trigger, n: nat, t: nat)
    requires RolloutOf(target) != ROLLOUT_RESTART
    ensures var done := RolledOut(ctx, c, target.key, trigger, StrategyOf(target), n, ctx.Now(t));
            var triggered := Triggered(ctx, c, target, trigger, n, t);
            || triggered.cluster == c
            || triggered == done
            || (done.err == None && triggered == Effect(Stamped(ctx, done.cluster, target.key, n, ctx.Now(t + 1)),
                                                        None))
  {
  }

  method TriggerReload(ctx: Context, api: ApiServer, target: Target, trigger: Trigger, n: nat, t: nat)
    returns (err: Option<string>)
    modifies api
    ensures Effect(api.state, err) == Triggered(ctx, old(api.state), target, trigger, n, t)
  {
    var rolloutStrategy := target.rolloutStrategy;
    if rolloutStrategy == "" {
      rolloutStrategy := ROLLOUT_ROLLOUT;
    }
    if rolloutStrategy == ROLLOUT_RESTART {
      err := RestartWorkloadPods(ctx, api, target.key, n);
      return;
    }
    var reloadStrategy := target.reloadStrategy;
    if reloadStrategy == "" {
      reloadStrategy := RELOAD_ENV_VARS;
    }
    if !IsWorkloadKind(target.key.kind) {
      return Some("unsupported workload kind: " + target.key.kind);
    }
    err := ReloadWorkload(ctx, api, target.key, trigger, reloadStrategy, n, ctx.Now(t));
    if err == None && target.config.None? && target.pausePeriod != "" {
      SetLastReloadAnnotation(ctx, api, target.key, n, ctx.Now(t + 1));
    }
  }

  /* ---- Pause periods ---- */

  datatype Pause = Running | Paused | Unreadable(message: string)

  predicate PausedInStatus(status: ConfigStatus, key: WorkloadKey, now: int)
  {
    exists i :: 0 <= i < |status.targets| && status.targets[i].key == key &&
                status.targets[i].pausedUntil.Some? && status.targets[i].pausedUntil.value > now
  }

  function PauseOf(ctx: Context, c: Cluster, target: Target, n: nat, now: int): Pause
  {
    if target.pausePeriod == "" then Running
    else
      match ctx.platform.parseDuration(target.pausePeriod)
      case None => Unreadable("invalid pause period: " + target.pausePeriod)
      case Some(duration) =>
        match target.config
        case Some(config) => if PausedInStatus(config.status, target.key, now) then Paused else Running
        case None =>
          match ReadWorkload(c, target.key, ctx.Fault(ReadPaused(n)))
          case Err(m) => Unreadable(m)
          case Ok(i) =>
            var annotations := c.workloads[i].annotations;
            if ANNOTATION_LAST_RELOAD !in annotations then Running
            else
              match ctx.platform.parseTime(annotations[ANNOTATION_LAST_RELOAD])
              case None => Running
              case Some(lastReload) => if lastReload + duration > now then Paused else Running
  }

  method IsPaused(ctx: Context, api: ApiServer, target: Target, n: nat, now: int) returns (pause: Pause)
    ensures pause == PauseOf(ctx, api.state, target, n, now)
  {
    if target.pausePeriod == "" {
      return Running;
    }
    var parsed := ctx.platform.parseDuration(target.pausePeriod);
    if parsed.None? {
      return Unreadable("invalid pause period: " + target.pausePeriod);
    }
    if target.config.Some? {
      var statuses := target.config.value.status.targets;
      for i := 0 to |statuses|
        invariant forall j :: 0 <= j < i ==>
                    !(statuses[j].key == target.key && statuses[j].pausedUntil.Some? &&
                      statuses[j].pausedUntil.value > now)
      {
        var status := statuses[i];
        if status.key == target.key {
          if status.pausedUntil.Some? && status.pausedUntil.value > now {
            return Paused;
          }
        }
      }
      return Running;
    }
    var got := api.GetWorkload(target.key, ctx.Fault(ReadPaused(n)));
    if got.Err? {
      return Unreadable(got.message);
    }
    if ANNOTATION_LAST_RELOAD !in got.value.annotations {
      return Running;
    }
    var lastReload := ctx.platform.parseTime(got.value.annotations[ANNOTATION_LAST_RELOAD]);
    if lastReload.None? {
      return Running;
    }
    return if lastReload.value + parsed.value > now then Paused else Running;
  }

  /* ---- When a reload succeeds ---- */

  /** On the rollout path a reload succeeds exactly when the workload can be read, the strategy is known, env-vars finds
      a container, and the write does not fail; a failed one changes nothing. */
  lemma RolloutSucceedsExactly(ctx: Context, c: Cluster, target: Target, trigger: Trigger, n: nat, t: nat)
    requires target.rolloutStrategy != "restart"
    ensures var done := Triggered(ctx, c, target, trigger, n, t);
            var read := ReadWorkload(c, target.key, ctx.Fault(ReadReloaded(n)));
            var envVars := target.reloadStrategy == "" || target.reloadStrategy == "env-vars";
            && (done.err == None <==>
                  read.Ok? && (envVars || target.reloadStrategy == "annotations") &&
                  (envVars ==> c.workloads[read.value].template.spec.containers != []) &&
                  ctx.Fault(WriteReloaded(n)) == None)
            && (done.err.Some? ==> done.cluster == c)
  {
  }

  /** Two clusters with the same templates, pods and resources, except that the given workload has another template. */
  ghost predicate Retemplated(c: Cluster, d: Cluster, i: nat, template: PodTemplate)
  {
    && d.pods == c.pods && d.resources == c.resources && |d.workloads| == |c.workloads|
    && forall j :: 0 <= j < |c.workloads| ==>
         d.workloads[j].template == if j == i then template else c.workloads[j].template
  }

  lemma StampedTemplates(ctx: Context, c: Cluster, d: Cluster, key: WorkloadKey, n: nat, now: int, i: nat,
                         template: PodTemplate)
    requires Retemplated(c, d, i, template)
    ensures Retemplated(c, Stamped(ctx, d, key, n, now), i, template)
  {
  }

  lemma RolledOutTemplates(ctx: Context, c: Cluster, key: WorkloadKey, trigger: Trigger, strategy: string, n: nat,
                           now: int)
    ensures var done := RolledOut(ctx, c, key, trigger, strategy, n, now);
            var read := ReadWorkload(c, key, ctx.Fault(ReadReloaded(n)));
            var rewrite := RewriteFor(ctx, trigger, strategy, now);
            if done.err.Some? then done.cluster == c
            else read.Ok? && rewrite.Ok? && Apply(c.workloads[read.value].template, rewrite.value).Ok? &&
                 Retemplated(c, done.cluster, read.value, Apply(c.workloads[read.value].template, rewrite.value).value)
  {
  }

  /** A rollout that succeeds rewrites the template of the workload it read, as its strategy says, and no other
      template, pod or resource; one that fails changes nothing. */
  lemma RolloutRewrites(ctx: Context, c: Cluster, target: Target, trigger: Trigger, n: nat, t: nat)
    requires target.rolloutStrategy != "restart"
    ensures var done := Triggered(ctx, c, target, trigger, n, t);
            var strategy := if target.reloadStrategy == "" then "env-vars" else target.reloadStrategy;
            var read := ReadWorkload(c, target.key, ctx.Fault(ReadReloaded(n)));
            var rewrite := RewriteFor(ctx, trigger, strategy, ctx.Now(t));
            if done.err.Some? then done.cluster == c
            else read.Ok? && rewrite.Ok? && Apply(c.workloads[read.value].template, rewrite.value).Ok? &&
                 Retemplated(c, done.cluster, read.value, Apply(c.workloads[read.value].template, rewrite.value).value)
  {
    RolledOutTemplates(ctx, c, target.key, trigger, StrategyOf(target), n, ctx.Now(t));
    var rolled := RolledOut(ctx, c, target.key, trigger, StrategyOf(target), n, ctx.Now(t));
    if IsWorkloadKind(target.key.kind) && rolled.err == None {
      var i := ReadWorkload(c, target.key, ctx.Fault(ReadReloaded(n))).value;
      var rewrite := RewriteFor(ctx, trigger, StrategyOf(target), ctx.Now(t)).value;
      StampedTemplates(ctx, c, rolled.cluster, target.key, n, ctx.Now(t + 1), i,
                       Apply(c.workloads[i].template, rewrite).value);
    }
  }

  /** A pod that the restart of a workload deletes: in the workload's namespace, with all its labels. */
  ghost predicate IsPodOf(c: Cluster, w: Workload, pod: ObjectKey)
  {
    && pod in c.pods && pod.namespace == w.key.namespace && w.matchLabels.Some?
    && forall l :: l in w.matchLabels.value ==> l in c.pods[pod] && c.pods[pod][l] == w.matchLabels.value[l]
  }

  /** On the restart path the pods of the workload are deleted, except those whose deletion fails, and nothing else
      changes; it succeeds exactly when the workload can be read and has labels, its pods can be listed, and there are
      none or one could be deleted. */
  lemma RestartSucceedsExactly(ctx: Context, c: Cluster, target: Target, trigger: Trigger, n: nat, t: nat)
    requires target.rolloutStrategy == "restart"
    ensures var done := Triggered(ctx, c, target, trigger, n, t);
            var read := ReadWorkload(c, target.key, ctx.Fault(ReadReloaded(n)));
            var listed := read.Ok? && c.workloads[read.value].matchLabels.Some? && ctx.Fault(ListPods(n)) == None;
            && done.cluster.(pods := c.pods, writes := c.writes) == c
            && (forall pod :: pod in done.cluster.pods <==>
                  pod in c.pods &&
                  !(listed && IsPodOf(c, c.workloads[read.value], pod) && ctx.Fault(DeletePod(n, pod)) == None))
            && (forall pod :: pod in done.cluster.pods ==> done.cluster.pods[pod] == c.pods[pod])
            && (done.err == None <==>
                  listed && ((exists pod :: IsPodOf(c, c.workloads[read.value], pod)) ==>
                             exists pod :: IsPodOf(c, c.workloads[read.value], pod) &&
                                           ctx.Fault(DeletePod(n, pod)) == None))
  {
    var done := Restarted(ctx, c, target.key, n);
    assert done == Triggered(ctx, c, target, trigger, n, t);
    match ReadWorkload(c, target.key, ctx.Fault(ReadReloaded(n)))
    case Err(_) =>
    case Ok(i) =>
      if c.workloads[i].matchLabels.Some? && ctx.Fault(ListPods(n)) == None {
        var w := c.workloads[i];
        var selected := set p | p in c.pods && Selects(p, c.pods[p], target.key.namespace, w.matchLabels.value);
        var deleted := set p | p in selected && ctx.Fault(DeletePod(n, p)).None?;
        assert forall p :: p in selected <==> IsPodOf(c, w, p);
        assert done.cluster.pods == c.pods - deleted;
        assert selected == {} <==> !exists p :: p in selected;
        assert deleted == {} <==> !exists p :: p in deleted;
      }
  }
}
