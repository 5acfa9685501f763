/** internal/controller/reconciler_discovery.go: the workloads to reload for a changed resource. */
module Discovery {
  import opened Common
  import opened Helpers
  import opened Kube
  import opened Api
  import opened PodReferences
  import opened Finder

  /** The operator's global flags. */
  datatype Options = Options(
    reloadOnCreate: bool, reloadOnDelete: bool, rolloutStrategy: string, reloadStrategy: string)

  datatype Found = Found(targets: seq<Target>, configs: seq<ReloaderConfig>)

  /* ---- ignoreResources ---- */

  predicate IgnoredBy(rule: ResourceReference, s: Subject)
  {
    rule.kind == s.kind && rule.name == s.name && (rule.namespace == "" || rule.namespace == s.namespace)
  }

  predicate ShouldIgnoreResource(config: ReloaderConfig, s: Subject)
  {
    exists i :: 0 <= i < |config.spec.ignoreResources| && IgnoredBy(config.spec.ignoreResources[i], s)
  }

  method CheckIgnoreResource(config: ReloaderConfig, s: Subject) returns (ignored: bool)
    ensures ignored == ShouldIgnoreResource(config, s)
  {
    var rules := config.spec.ignoreResources;
    for i := 0 to |rules|
      invariant forall j :: 0 <= j < i ==> !IgnoredBy(rules[j], s)
    {
      if rules[i].kind != s.kind || rules[i].name != s.name {
        continue;
      }
      if rules[i].namespace != "" && rules[i].namespace != s.namespace {
        continue;
      }
      return true;
    }
    return false;
  }

  function NotIgnoring(s: Subject): ReloaderConfig -> bool
  {
    config => !ShouldIgnoreResource(config, s)
  }

  function ConfigsFor(ctx: Context, c: Cluster, s: Subject): seq<ReloaderConfig>
  {
    Filter(ConfigsWatching(ctx, c, s), NotIgnoring(s))
  }

  /* ---- Merging both sources ---- */

  /** The j-th target of a config with its strategies resolved. */
  function ConfigTarget(o: Options, config: ReloaderConfig, j: nat): Target
    requires j < |config.spec.targets|
  {
    var t := config.spec.targets[j];
    Target(WorkloadKey(t.kind, t.name, GetDefaultNamespace(t.namespace, config.key.namespace)),
           GetDefaultRolloutStrategy(t.rolloutStrategy, GetDefaultRolloutStrategy(config.spec.rolloutStrategy,
                 o.rolloutStrategy)),
           GetDefaultReloadStrategy(t.reloadStrategy, GetDefaultReloadStrategy(config.spec.reloadStrategy,
                 o.reloadStrategy)),
           t.pausePeriod,
           t.requireReference,
           Some(config))
  }

  function TargetsOf(o: Options, config: ReloaderConfig): seq<Target>
  {
    seq(|config.spec.targets|, j requires 0 <= j < |config.spec.targets| => ConfigTarget(o, config, j))
  }

  function ConfigTargets(o: Options, configs: seq<ReloaderConfig>): seq<Target>
  {
    if configs == [] then []
    else
      var n := |configs| - 1;
      ConfigTargets(o, configs[..n]) + TargetsOf(o, configs[n])
  }

  method MergeTargets(o: Options, configs: seq<ReloaderConfig>, annotated: seq<Target>) returns (all: seq<Target>)
    ensures all == ConfigTargets(o, configs) + annotated
  {
    all := [];
    for i := 0 to |configs|
      invariant all == ConfigTargets(o, configs[..i])
    {
      var config := configs[i];
      assert configs[..i + 1][..i] == configs[..i];
      var defaultRolloutStrategy := GetDefaultRolloutStrategy(config.spec.rolloutStrategy, o.rolloutStrategy);
      var defaultReloadStrategy := GetDefaultReloadStrategy(config.spec.reloadStrategy, o.reloadStrategy);
      for j := 0 to |config.spec.targets|
        invariant all == ConfigTargets(o, configs[..i]) + TargetsOf(o, config)[..j]
      {
        var t := config.spec.targets[j];
        all := all + [Target(WorkloadKey(t.kind, t.name, GetDefaultNamespace(t.namespace, config.key.namespace)),
                             GetDefaultRolloutStrategy(t.rolloutStrategy, defaultRolloutStrategy),
                             GetDefaultReloadStrategy(t.reloadStrategy, defaultReloadStrategy),
                             t.pausePeriod, t.requireReference, Some(config))];
        assert TargetsOf(o, config)[..j + 1] == TargetsOf(o, config)[..j] + [ConfigTarget(o, config, j)];
      }
      assert TargetsOf(o, config)[..|config.spec.targets|] == TargetsOf(o, config);
    }
    assert configs[..|configs|] == configs;
    all := all + annotated;
  }

  /** A strategy is the first non-empty of target, config, global flag and built-in default; the namespace is the
      target's own or else its config's; the rest is the target's, and the config goes along. */
  lemma StrategyPrecedence(o: Options, config: ReloaderConfig, j: nat)
    requires j < |config.spec.targets|
    ensures var t := config.spec.targets[j];
            ConfigTarget(o, config, j).rolloutStrategy ==
              FirstNonEmpty([t.rolloutStrategy, config.spec.rolloutStrategy, o.rolloutStrategy, "rollout"]) &&
            ConfigTarget(o, config, j).reloadStrategy ==
              FirstNonEmpty([t.reloadStrategy, config.spec.reloadStrategy, o.reloadStrategy, "env-vars"]) &&
            ConfigTarget(o, config, j).key.namespace == FirstNonEmpty([t.namespace, config.key.namespace, "", ""]) &&
            ConfigTarget(o, config, j).key.kind == t.kind && ConfigTarget(o, config, j).key.name == t.name &&
            ConfigTarget(o, config, j).pausePeriod == t.pausePeriod &&
            ConfigTarget(o, config, j).requireReference == t.requireReference &&
            ConfigTarget(o, config, j).config == Some(config)
  {
    var t := config.spec.targets[j];
    FirstOfFour(t.rolloutStrategy, config.spec.rolloutStrategy, o.rolloutStrategy, "rollout");
    FirstOfFour(t.reloadStrategy, config.spec.reloadStrategy, o.reloadStrategy, "env-vars");
    FirstOfFour(t.namespace, config.key.namespace, "", "");
  }

  lemma FirstOfFour(a: string, b: string, c: string, d: string)
    ensures FirstNonEmpty([a, b, c, d]) == if a != "" then a else if b != "" then b else if c != "" then c else d
  {
    var all := [a, b, c, d];
    var i := First(all, (s: string) => s != "");
    assert all[0] == a && all[1] == b && all[2] == c && all[3] == d;
  }

  /* ---- Targeted reload ---- */

  predicate TargetedReload(target: Target)
  {
    target.config.Some? && target.config.value.spec.watched.Some? &&
    target.config.value.spec.watched.value.enableTargetedReload
  }

  /** What filterTargetsForTargetedReload decides for the i-th target. */
  predicate Passes(ctx: Context, c: Cluster, target: Target, i: nat, s: Subject)
  {
    if target.config.None? then true
    else if !TargetedReload(target) then true
    else if !target.requireReference then true
    else
      match ReadWorkload(c, target.key, ctx.Fault(ReadFiltered(i)))
      case Err(_) => true
      case Ok(w) => CheckPodSpecReferencesResource(c.workloads[w].template.spec, s.kind, s.name)
  }

  function Passing(ctx: Context, c: Cluster, targets: seq<Target>, s: Subject): nat -> bool
  {
    (i: nat) => i < |targets| && Passes(ctx, c, targets[i], i, s)
  }

  function Filtered(ctx: Context, c: Cluster, targets: seq<Target>, s: Subject): seq<Target>
  {
    Collect(targets, |targets|, Passing(ctx, c, targets, s), Identity())
  }

  method FilterTargetsForTargetedReload(ctx: Context, api: ApiServer, targets: seq<Target>, s: Subject)
    returns (filtered: seq<Target>)
    ensures filtered == Filtered(ctx, api.state, targets, s)
  {
    filtered := [];
    for i := 0 to |targets|
      invariant filtered == Collect(targets, i, Passing(ctx, api.state, targets, s), Identity())
    {
      var target := targets[i];
      if target.config.None? {
        filtered := filtered + [target];
        continue;
      }
      var watched := target.config.value.spec.watched;
      var enableTargetedReload := watched.Some? && watched.value.enableTargetedReload;
      if !enableTargetedReload || !target.requireReference {
        filtered := filtered + [target];
        continue;
      }
      var got := api.GetWorkload(target.key, ctx.Fault(ReadFiltered(i)));
      if got.Err? || CheckPodSpecReferencesResource(got.value.template.spec, s.kind, s.name) {
        filtered := filtered + [target];
      }
    }
  }

  /* ---- Discovery ---- */

  function ResourceAnnotations(ctx: Context, c: Cluster, s: Subject): map<string, string>
  {
    if !IsResourceKind(s.kind) then map[]
    else
      match ReadResource(c, s.kind, ObjectKey(s.namespace, s.name), ctx.Fault(GetAnnotatedResource))
      case Ok(i) => c.resources[i].annotations
      case Err(_) => map[]
  }

  function Discovered(ctx: Context, o: Options, c: Cluster, s: Subject): Result<Found>
  {
    if ctx.Fault(ListConfigs).Some? then Err(ctx.Fault(ListConfigs).value)
    else if ListFault(ctx).Some? then Err(ListFault(ctx).value)
    else
      var configs := ConfigsFor(ctx, c, s);
      Ok(Found(ConfigTargets(o, configs) + Annotated(c, s, ResourceAnnotations(ctx, c, s)), configs))
  }

  method DiscoverTargets(ctx: Context, o: Options, api: ApiServer, s: Subject) returns (r: Result<Found>)
    ensures r == Discovered(ctx, o, api.state, s)
  {
    var watching := FindReloaderConfigsWatchingResource(ctx, api, s);
    if watching.Err? {
      return Err(watching.message);
    }
    var configs: seq<ReloaderConfig> := [];
    for i := 0 to |watching.value|
      invariant configs == Collect(watching.value, i, At(watching.value, NotIgnoring(s)), Identity())
    {
      var ignored := CheckIgnoreResource(watching.value[i], s);
      if ignored {
        continue;
      }
      configs := configs + [watching.value[i]];
    }
    var resourceAnnotations := map[];
    if IsResourceKind(s.kind) {
      var got := api.GetResource(s.kind, ObjectKey(s.namespace, s.name), ctx.Fault(GetAnnotatedResource));
      if got.Ok? {
        resourceAnnotations := got.value.annotations;
      }
    }
    var annotated := FindWorkloadsWithAnnotations(ctx, api, s, resourceAnnotations);
    if annotated.Err? {
      return Err(annotated.message);
    }
    var all := MergeTargets(o, configs, annotated.value);
    return Ok(Found(all, configs));
  }

  /* ---- Selection is exact ---- */

  ghost function WatchingAndNotIgnoring(ctx: Context, c: Cluster, s: Subject): nat -> bool
  {
    (i: nat) => i < |c.configs| && ConfigConcerned(ctx, c, i, s) && !ShouldIgnoreResource(c.configs[i], s)
  }

  /** The configs found are those that concern the resource and do not ignore it, in their order. */
  lemma ConfigsAreExact(ctx: Context, c: Cluster, s: Subject)
    ensures ConfigsFor(ctx, c, s) == Pick(c.configs, Kept(|c.configs|, WatchingAndNotIgnoring(ctx, c, s)))
  {
    FilterCollected(c.configs, |c.configs|, ConfigsConcerned(ctx, c, s), NotIgnoring(s),
                    WatchingAndNotIgnoring(ctx, c, s));
    CollectIsKept(c.configs, |c.configs|, WatchingAndNotIgnoring(ctx, c, s), Identity());
  }

  /** Targeted reload is on, a reference is required, and the workload can be read and has none. */
  ghost predicate Dropped(ctx: Context, c: Cluster, target: Target, i: nat, s: Subject)
  {
    && target.config.Some? && target.config.value.spec.watched.Some?
    && target.config.value.spec.watched.value.enableTargetedReload
    && target.requireReference
    && exists w :: 0 <= w < |c.workloads| && ReadWorkload(c, target.key, ctx.Fault(ReadFiltered(i))) == Ok(w) &&
                   !References(c.workloads[w].template.spec, s.kind, s.name)
  }

  ghost function NotDropped(ctx: Context, c: Cluster, targets: seq<Target>, s: Subject): nat -> bool
  {
    (i: nat) => i < |targets| && !Dropped(ctx, c, targets[i], i, s)
  }

  lemma PassesUnlessDropped(ctx: Context, c: Cluster, target: Target, i: nat, s: Subject)
    ensures Passes(ctx, c, target, i, s) <==> !Dropped(ctx, c, target, i, s)
  {
    var read := ReadWorkload(c, target.key, ctx.Fault(ReadFiltered(i)));
    if read.Ok? {
      assert 0 <= read.value < |c.workloads|;
    }
  }

  /** Filtering drops exactly the targets that `Dropped` describes and keeps the others in order. */
  lemma FilterIsExact(ctx: Context, c: Cluster, targets: seq<Target>, s: Subject)
    ensures Filtered(ctx, c, targets, s) == Pick(targets, Kept(|targets|, NotDropped(ctx, c, targets, s)))
  {
    var passing, notDropped := Passing(ctx, c, targets, s), NotDropped(ctx, c, targets, s);
    forall i: nat | i < |targets| ensures passing(i) == notDropped(i) {
      PassesUnlessDropped(ctx, c, targets[i], i, s);
    }
    CollectIsKept(targets, |targets|, passing, Identity());
    KeptSame(|targets|, passing, notDropped);
  }

  /** How many targets the first n configs have. */
  function Offset(configs: seq<ReloaderConfig>, n: nat): nat
    requires n <= |configs|
  {
    if n == 0 then 0 else Offset(configs, n - 1) + |configs[n - 1].spec.targets|
  }

  lemma {:induction false} OffsetBelow(configs: seq<ReloaderConfig>, n: nat, i: nat, j: nat)
    requires i < n <= |configs| && j < |configs[i].spec.targets|
    ensures Offset(configs, i) + j < Offset(configs, n)
  {
    if i < n - 1 {
      OffsetBelow(configs, n - 1, i, j);
    }
  }

  lemma EarlierInOrder(o: Options, configs: seq<ReloaderConfig>, k: nat)
    requires configs != [] && k < |ConfigTargets(o, configs[..|configs| - 1])|
    ensures k < |ConfigTargets(o, configs)| && ConfigTargets(o, configs)[k] ==
            ConfigTargets(o, configs[..|configs| - 1])[k]
  {
  }

  lemma LastInOrder(o: Options, configs: seq<ReloaderConfig>, j: nat)
    requires configs != [] && j < |configs[|configs| - 1].spec.targets|
    ensures var before := |ConfigTargets(o, configs[..|configs| - 1])|;
            before + j < |ConfigTargets(o, configs)| && ConfigTargets(o, configs)[before + j] ==
            ConfigTarget(o, configs[|configs| - 1], j)
  {
  }

  lemma MergedFit(o: Options, configs: seq<ReloaderConfig>, i: nat, j: nat)
    requires i < |configs| && j < |configs[i].spec.targets|
    ensures Offset(configs, i) + j < |ConfigTargets(o, configs)| == Offset(configs, |configs|)
  {
    ConfigTargetsCount(o, configs);
    OffsetBelow(configs, |configs|, i, j);
  }

  /** In the merged list the targets of each config follow those of the configs before it, each naming its config. */
  lemma {:induction false} MergedInOrder(o: Options, configs: seq<ReloaderConfig>, i: nat, j: nat)
    requires i < |configs| && j < |configs[i].spec.targets|
    ensures Offset(configs, i) + j < |ConfigTargets(o, configs)| == Offset(configs, |configs|)
    ensures ConfigTargets(o, configs)[Offset(configs, i) + j] == ConfigTarget(o, configs[i], j)
  {
    var n := |configs| - 1;
    MergedFit(o, configs, i, j);
    OffsetOfPrefix(configs, n, i);
    if i < n {
      MergedInOrder(o, configs[..n], i, j);
      EarlierInOrder(o, configs, Offset(configs, i) + j);
    } else {
      ConfigTargetsCount(o, configs[..n]);
      LastInOrder(o, configs, j);
    }
  }

  lemma {:induction false} OffsetOfPrefix(configs: seq<ReloaderConfig>, n: nat, i: nat)
    requires i <= n <= |configs|
    ensures Offset(configs[..n], i) == Offset(configs, i)
  {
    if i == 0 {
    } else {
      OffsetOfPrefix(configs, n, i - 1);
    }
  }

  lemma {:induction false} ConfigTargetsCount(o: Options, configs: seq<ReloaderConfig>)
    ensures |ConfigTargets(o, configs)| == Offset(configs, |configs|)
    ensures forall t :: t in ConfigTargets(o, configs) ==> t.config.Some?
  {
    if configs == [] {
    } else {
      var n := |configs| - 1;
      ConfigTargetsCount(o, configs[..n]);
      OffsetOfPrefix(configs, n, n);
    }
  }

  /** The reload list is exact: the configs that concern the resource and do not ignore it contribute their
      targets in order, annotated workloads follow, and filtering drops the `Dropped` ones, all from configs. */
  lemma SelectionIsExact(ctx: Context, o: Options, c: Cluster, s: Subject)
    requires Discovered(ctx, o, c, s).Ok?
    ensures var found := Discovered(ctx, o, c, s).value;
            var targets := found.targets; var count := Offset(found.configs, |found.configs|);
            && found.configs == Pick(c.configs, Kept(|c.configs|, WatchingAndNotIgnoring(ctx, c, s)))
            && count <= |targets|
            && targets[..count] == ConfigTargets(o, found.configs)
            && targets[count..] == Annotated(c, s, ResourceAnnotations(ctx, c, s))
            && Filtered(ctx, c, targets, s) == Pick(targets, Kept(|targets|, NotDropped(ctx, c, targets, s)))
            && forall i :: count <= i < |targets| ==> i in Kept(|targets|, NotDropped(ctx, c, targets, s))
  {
    var found := Discovered(ctx, o, c, s).value;
    ConfigsAreExact(ctx, c, s);
    ConfigTargetsCount(o, found.configs);
    FilterIsExact(ctx, c, found.targets, s);
    AnnotatedAreKept(ctx, c, found.targets, Offset(found.configs, |found.configs|), s);
  }

  /** Targets without a config are never dropped. */
  lemma AnnotatedAreKept(ctx: Context, c: Cluster, targets: seq<Target>, count: nat, s: Subject)
    requires count <= |targets| && targets[count..] == Annotated(c, s, ResourceAnnotations(ctx, c, s))
    ensures forall i :: count <= i < |targets| ==> i in Kept(|targets|, NotDropped(ctx, c, targets, s))
  {
    AnnotatedHaveNoConfig(c, s, ResourceAnnotations(ctx, c, s));
    KeptExactly(|targets|, NotDropped(ctx, c, targets, s));
    forall i | count <= i < |targets| ensures targets[i].config == None {
      assert targets[i] == targets[count..][i - count];
    }
  }

  lemma AnnotatedHaveNoConfig(c: Cluster, s: Subject, resourceAnnotations: map<string, string>)
    ensures forall t :: t in Annotated(c, s, resourceAnnotations) ==> t.config == None
  {
    forall kind: string
      ensures forall t :: t in AnnotatedOfKind(c, kind, s, resourceAnnotations) ==> t.config == None
    {
      CollectIsKept(c.workloads, |c.workloads|, WorkloadsConcerned(c, kind, s, resourceAnnotations), AsTarget());
    }
  }

  /** A config ignores a resource exactly when some rule names its kind, its name and, if any, its namespace. */
  lemma IgnoredExactly(config: ReloaderConfig, s: Subject)
    ensures ShouldIgnoreResource(config, s) <==>
            exists rule :: rule in config.spec.ignoreResources && rule.kind == s.kind && rule.name == s.name &&
                           (rule.namespace == "" || rule.namespace == s.namespace)
  {
    if rule :| rule in config.spec.ignoreResources && rule.kind == s.kind && rule.name == s.name &&
               (rule.namespace == "" || rule.namespace == s.namespace)
    {
      var i :| 0 <= i < |config.spec.ignoreResources| && config.spec.ignoreResources[i] == rule;
      assert IgnoredBy(config.spec.ignoreResources[i], s);
    }
  }

  /** The annotations that search and match look at are those of the resource itself, if it can be read. */
  lemma ResourceAnnotationsExactly(ctx: Context, c: Cluster, s: Subject)
    requires IsResourceKind(s.kind)
    ensures var read := ReadResource(c, s.kind, ObjectKey(s.namespace, s.name), ctx.Fault(GetAnnotatedResource));
            ResourceAnnotations(ctx, c, s) == if read.Ok? then c.resources[read.value].annotations else map[]
  {
  }

  /** Discovery fails exactly when one of its four lists does. */
  lemma DiscoveryFailsExactly(ctx: Context, o: Options, c: Cluster, s: Subject)
    ensures Discovered(ctx, o, c, s).Err? <==>
            ctx.Fault(ListConfigs).Some? || ctx.Fault(ListWorkloads("Deployment")).Some? ||
            ctx.Fault(ListWorkloads("StatefulSet")).Some? || ctx.Fault(ListWorkloads("DaemonSet")).Some?
  {
  }
}
