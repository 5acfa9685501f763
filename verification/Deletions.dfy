/** What the deletion of a resource sets off, and what passes deliver to the workloads they reload. */
module Deletions {
  import opened Common
  import opened Helpers
  import opened Hash
  import opened Kube
  import opened Api
  import opened Template
  import opened Updater
  import opened Finder
  import opened Discovery
  import opened Reload
  import opened Events
  import opened Controller
  import opened Rollouts

  /* ---- Whose deletion is it? ---- */

  /** Nothing with this key exists. */
  ghost predicate Missing(c: Cluster, request: ObjectKey)
  {
    && (forall i :: 0 <= i < |c.configs| ==> c.configs[i].key != request)
    && (forall i :: 0 <= i < |c.resources| && c.resources[i].key == request ==>
          c.resources[i].kind != "Secret" && c.resources[i].kind != "ConfigMap")
  }

  /** Discovery succeeds and finds some target or some config. */
  ghost predicate Concerns(ctx: Context, o: Options, c: Cluster, s: Subject)
  {
    match Discovered(ctx, o, c, s)
    case Err(_) => false
    case Ok(found) => found.targets != [] || found.configs != []
  }

  lemma MissingIsNotFound(c: Cluster, request: ObjectKey)
    requires Missing(c, request)
    ensures FindConfig(c, request) == |c.configs|
    ensures FindResource(c, "Secret", request) == FindResource(c, "ConfigMap", request) == |c.resources|
  {
  }

  /** A request for a key that nothing has, whose lookups do not fail: without reload-on-delete nothing happens; with
      it, the Secret of that key counts as deleted if it concerns any target or config, else the ConfigMap on the same
      condition, else nothing happens. */
  lemma DeletionExactly(ctx: Context, probes: (Context, Context), o: Options, c: Cluster, request: ObjectKey)
    requires Missing(c, request)
    requires ctx.Fault(GetConfig) == ctx.Fault(GetSecret) == ctx.Fault(GetConfigMap) == None
    ensures var pass := Reconciled(ctx, probes, o, c, request);
            var secret := Subject("Secret", request.name, request.namespace);
            var config := Subject("ConfigMap", request.name, request.namespace);
            pass == if o.reloadOnDelete && Concerns(probes.0, o, c, secret) then DeletePass(ctx, o, c, secret)
                    else if o.reloadOnDelete && Concerns(probes.1, o, c, config) then DeletePass(ctx, o, c, config)
                    else Pass(c, [], [], None)
  {
    MissingIsNotFound(c, request);
    DispatchedMissing(ctx, probes, o, c, request);
    WatchedConcerns(probes.0, o, c, Subject("Secret", request.name, request.namespace));
    WatchedConcerns(probes.1, o, c, Subject("ConfigMap", request.name, request.namespace));
  }

  lemma DispatchedMissing(ctx: Context, probes: (Context, Context), o: Options, c: Cluster, request: ObjectKey)
    requires FindConfig(c, request) == |c.configs|
    requires FindResource(c, "Secret", request) == FindResource(c, "ConfigMap", request) == |c.resources|
    requires ctx.Fault(GetConfig) == ctx.Fault(GetSecret) == ctx.Fault(GetConfigMap) == None
    ensures Dispatch(ctx, probes, o, c, request) == DispatchMissing(probes, o, c, request)
  {
  }

  lemma WatchedConcerns(ctx: Context, o: Options, c: Cluster, s: Subject)
    ensures Watched(Discovered(ctx, o, c, s)) <==> Concerns(ctx, o, c, s)
  {
  }

  /** A deletion reloads the targets of its own resource, as deleted. */
  lemma DeleteDecides(ctx: Context, o: Options, c: Cluster, s: Subject)
    ensures var pass := DeletePass(ctx, o, c, s);
            match Discovered(ctx, o, c, s)
            case Err(m) => pass == Pass(c, [], [], Some(m))
            case Ok(found) =>
              var p := Executed(ctx, c, Filtered(ctx, c, found.targets, s), Deleted(s.kind, s.name));
              pass.cluster == p.cluster && pass.outcomes == p.outcomes && pass.err == None
  {
  }

  /* ---- What a deletion leaves ---- */

  /** The variable says deleted, at some time that the pass read from the clock. */
  ghost predicate SaysDeleted(ctx: Context, c: Cluster, w: Watch)
  {
    exists k: nat :: Value(c, w) == Some("deleted-" + ctx.platform.formatTime(ctx.Now(k)))
  }

  lemma RolledOutMarks(ctx: Context, c: Cluster, key: WorkloadKey, trigger: Trigger, strategy: string, n: nat, k: nat,
                       w: Watch)
    requires trigger.Deleted?
    ensures var d := RolledOut(ctx, c, key, trigger, strategy, n, ctx.Now(k)).cluster;
            Value(d, w) == Value(c, w) || Value(d, w) == Some("deleted-" + ctx.platform.formatTime(ctx.Now(k)))
  {
    var done := RolledOut(ctx, c, key, trigger, strategy, n, ctx.Now(k));
    if done.err == None {
      var i := ReadWorkload(c, key, ctx.Fault(ReadReloaded(n))).value;
      var template := c.workloads[i].template;
      var rewrite := RewriteFor(ctx, trigger, strategy, ctx.Now(k)).value;
      PutWorkloadValue(c, i, Apply(template, rewrite).value, w);
      if rewrite.DeleteEnv? {
        PutThenLookup(FirstEnv(template), GetEnvVarName(trigger.kind, trigger.name), "deleted-" + rewrite.timestamp,
                      w.Variable());
      }
    }
  }

  lemma TriggeredMarks(ctx: Context, c: Cluster, target: Target, trigger: Trigger, n: nat, t: nat, w: Watch)
    requires trigger.Deleted?
    ensures var d := Triggered(ctx, c, target, trigger, n, t).cluster;
            Value(d, w) == Value(c, w) || Value(d, w) == Some("deleted-" + ctx.platform.formatTime(ctx.Now(t)))
  {
    if RolloutOf(target) == ROLLOUT_RESTART {
      assert Restarted(ctx, c, target.key, n).cluster.workloads == c.workloads;
    } else {
      TriggeredCases(ctx, c, target, trigger, n, t);
      var done := RolledOut(ctx, c, target.key, trigger, StrategyOf(target), n, ctx.Now(t));
      RolledOutMarks(ctx, c, target.key, trigger, StrategyOf(target), n, t, w);
      StampedValue(ctx, done.cluster, target.key, n, ctx.Now(t + 1), w);
    }
  }

  lemma MarkStays(ctx: Context, c: Cluster, d: Cluster, k: nat, w: Watch)
    requires SaysDeleted(ctx, c, w)
    requires Value(d, w) == Value(c, w) || Value(d, w) == Some("deleted-" + ctx.platform.formatTime(ctx.Now(k)))
    ensures SaysDeleted(ctx, d, w)
  {
  }

  lemma TriggeredKeepsMark(ctx: Context, c: Cluster, target: Target, trigger: Trigger, n: nat, t: nat, w: Watch)
    requires trigger.Deleted? && SaysDeleted(ctx, c, w)
    ensures SaysDeleted(ctx, Triggered(ctx, c, target, trigger, n, t).cluster, w)
  {
    TriggeredMarks(ctx, c, target, trigger, n, t, w);
    MarkStays(ctx, c, Triggered(ctx, c, target, trigger, n, t).cluster, t, w);
  }

  lemma ReloadOneMarks(ctx: Context, c: Cluster, target: Target, trigger: Trigger, n: nat, w: Watch)
    requires trigger.Deleted? && SaysDeleted(ctx, c, w)
    ensures SaysDeleted(ctx, ReloadOne(ctx, c, target, trigger, n).cluster, w)
  {
    ReloadOneCases(ctx, c, target, trigger, n);
    TriggeredKeepsMark(ctx, c, Refreshed(ctx, c, target, n), trigger, n, READINGS * n + 1, w);
  }

  lemma TriggeredDeletes(ctx: Context, c: Cluster, target: Target, trigger: Trigger, n: nat, t: nat, w: Watch)
    requires trigger.Deleted? && Triggered(ctx, c, target, trigger, n, t).err == None
    requires RolloutOf(target) != ROLLOUT_RESTART && StrategyOf(target) == RELOAD_ENV_VARS
    requires w.workload == target.key && w.kind == trigger.kind && w.key.name == trigger.name
    ensures SaysDeleted(ctx, Triggered(ctx, c, target, trigger, n, t).cluster, w)
  {
    var done := RolledOut(ctx, c, target.key, trigger, RELOAD_ENV_VARS, n, ctx.Now(t));
    assert done.err == None;
    var i := ReadWorkload(c, target.key, ctx.Fault(ReadReloaded(n))).value;
    var template, timestamp := c.workloads[i].template, ctx.platform.formatTime(ctx.Now(t));
    PutThenLookup(FirstEnv(template), w.Variable(), "deleted-" + timestamp, w.Variable());
    PutWorkloadValue(c, i, Apply(template, DeleteEnv(trigger.kind, trigger.name, timestamp)).value, w);
    StampedValue(ctx, done.cluster, target.key, n, ctx.Now(t + 1), w);
  }

  ghost function StaysDeleted(ctx: Context, w: Watch): Cluster -> bool
  {
    (d: Cluster) => SaysDeleted(ctx, d, w)
  }

  /** After a deletion every workload reported as reloaded by env-vars says deleted in the variable of the resource,
      whatever happened to the targets after it. */
  lemma DeletedCarriesMark(ctx: Context, c: Cluster, targets: seq<Target>, trigger: Trigger, i: nat, namespace: string)
    requires i < |targets| && trigger.Deleted?
    requires RolloutOf(targets[i]) != ROLLOUT_RESTART && StrategyOf(targets[i]) == RELOAD_ENV_VARS
    requires Executed(ctx, c, targets, trigger).outcomes[i].Reloaded?
    ensures SaysDeleted(ctx, Executed(ctx, c, targets, trigger).cluster,
                        Watch(targets[i].key, trigger.kind, ObjectKey(namespace, trigger.name)))
  {
    var w := Watch(targets[i].key, trigger.kind, ObjectKey(namespace, trigger.name));
    var handle, keeps := ReloadHandler(ctx, trigger), StaysDeleted(ctx, w);
    LoopOutcome(handle, c, targets, |targets|, i);
    var before := HandledUpTo(handle, c, targets, i).cluster;
    ReloadOneCases(ctx, before, targets[i], trigger, i);
    TriggeredDeletes(ctx, before, Refreshed(ctx, before, targets[i], i), trigger, i, READINGS * i + 1, w);
    assert keeps(HandledUpTo(handle, c, targets, i + 1).cluster);
    forall d, k: nat | k < |targets| && keeps(d) ensures keeps(handle(d, targets[k], k).cluster) {
      ReloadOneMarks(ctx, d, targets[k], trigger, k, w);
    }
    LoopKeepsFrom(handle, c, targets, i + 1, |targets|, keeps);
  }

  /* ---- What passes deliver ---- */

  /** The target of a pass at this position was rolled out by environment variables, by its own strategies. */
  ghost predicate DeliveredTo(targets: seq<Target>, outcomes: seq<Outcome>, i: nat)
  {
    && i < |targets| && i < |outcomes| && outcomes[i].Reloaded?
    && targets[i].rolloutStrategy != "restart"
    && (targets[i].reloadStrategy == "" || targets[i].reloadStrategy == "env-vars")
  }

  /** A changed resource delivers the hash of its data to the workloads it reloads. */
  lemma UpdateDelivers(ctx: Context, o: Options, c: Cluster, r: Resource, i: nat)
    requires IsResourceKind(r.kind) && Discovered(ctx, o, c, SubjectOf(r)).Ok?
    requires var targets := Filtered(ctx, c, Discovered(ctx, o, c, SubjectOf(r)).value.targets, SubjectOf(r));
             DeliveredTo(targets, UpdatePass(ctx, o, c, r).outcomes, i)
    ensures var targets := Filtered(ctx, c, Discovered(ctx, o, c, SubjectOf(r)).value.targets, SubjectOf(r));
            Value(UpdatePass(ctx, o, c, r).cluster, Watch(targets[i].key, r.kind, r.key)) ==
            Some(ResourceHash(ctx.platform, r))
  {
    var s, hash := SubjectOf(r), ResourceHash(ctx.platform, r);
    var found := Discovered(ctx, o, c, s).value;
    var targets, trigger := Filtered(ctx, c, found.targets, s), Changed(s.kind, s.name, s.namespace, hash);
    UpdateDecides(ctx, o, c, r);
    ReloadedCarriesHash(ctx, c, targets, trigger, i);
    var d := Reloading(ctx, c, found, s, trigger).cluster;
    assert HashPersisted(ctx, d, r, hash).cluster.workloads == d.workloads;
  }

  /** A deleted resource leaves its mark on the workloads it reloads. */
  lemma DeletionDelivers(ctx: Context, o: Options, c: Cluster, s: Subject, i: nat)
    requires Discovered(ctx, o, c, s).Ok?
    requires var targets := Filtered(ctx, c, Discovered(ctx, o, c, s).value.targets, s);
             DeliveredTo(targets, DeletePass(ctx, o, c, s).outcomes, i)
    ensures var targets := Filtered(ctx, c, Discovered(ctx, o, c, s).value.targets, s);
            SaysDeleted(ctx, DeletePass(ctx, o, c, s).cluster,
                        Watch(targets[i].key, s.kind, ObjectKey(s.namespace, s.name)))
  {
    var targets := Filtered(ctx, c, Discovered(ctx, o, c, s).value.targets, s);
    DeleteDecides(ctx, o, c, s);
    DeletedCarriesMark(ctx, c, targets, Deleted(s.kind, s.name), i, s.namespace);
  }
}
