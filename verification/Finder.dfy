/** internal/pkg/workload/finder.go: which configurations and which annotated workloads a resource concerns. */
module Finder {
  import opened Common
  import opened Helpers
  import opened Kube
  import opened Api
  import opened PodReferences

  /** The changed resource. */
  datatype Subject = Subject(kind: string, name: string, namespace: string)

  /* ---- ReloaderConfigs watching a resource ---- */

  function WatchList(config: ReloaderConfig, kind: string): seq<string>
  {
    match config.spec.watched
    case None => []
    case Some(w) => if kind == KIND_SECRET then w.secrets else if kind == KIND_CONFIGMAP then w.configMaps else []
  }

  /** Whether the j-th target of the i-th config lives with the resource, can be read, and mentions it. */
  predicate TargetReferences(ctx: Context, c: Cluster, i: nat, j: nat, s: Subject)
    requires i < |c.configs| && j < |c.configs[i].spec.targets|
  {
    var config := c.configs[i];
    var target := config.spec.targets[j];
    var namespace := GetDefaultNamespace(target.namespace, config.key.namespace);
    namespace == s.namespace &&
    match ReadWorkload(c, WorkloadKey(target.kind, target.name, namespace), ctx.Fault(ReadReference(i, j)))
    case Err(_) => false
    case Ok(w) => CheckPodSpecReferencesResource(c.workloads[w].template.spec, s.kind, s.name)
  }

  function AnyTargetReferences(ctx: Context, c: Cluster, i: nat, from: nat, s: Subject): (r: bool)
    requires i < |c.configs| && from <= |c.configs[i].spec.targets|
    ensures r <==> exists j :: from <= j < |c.configs[i].spec.targets| && TargetReferences(ctx, c, i, j, s)
    decreases |c.configs[i].spec.targets| - from
  {
    if from == |c.configs[i].spec.targets| then false
    else if TargetReferences(ctx, c, i, from, s) then true
    else AnyTargetReferences(ctx, c, i, from + 1, s)
  }

  predicate ConfigConcerned(ctx: Context, c: Cluster, i: nat, s: Subject)
    requires i < |c.configs|
  {
    var config := c.configs[i];
    config.key.namespace == s.namespace &&
    Lookup(config.annotations, ANNOTATION_IGNORE) != "true" &&
    (s.name in WatchList(config, s.kind) ||
     (config.spec.autoReloadAll && AnyTargetReferences(ctx, c, i, 0, s)))
  }

  /** The j-th target of the i-th config is the w-th workload, read in the resource's namespace, and references it. */
  ghost predicate ReferencesAt(ctx: Context, c: Cluster, i: nat, j: nat, s: Subject, w: nat)
    requires i < |c.configs| && j < |c.configs[i].spec.targets| && w < |c.workloads|
  {
    var target := c.configs[i].spec.targets[j];
    ReadWorkload(c, WorkloadKey(target.kind, target.name, s.namespace), ctx.Fault(ReadReference(i, j))) == Ok(w) &&
    GetDefaultNamespace(target.namespace, c.configs[i].key.namespace) == s.namespace &&
    References(c.workloads[w].template.spec, s.kind, s.name)
  }

  lemma TargetReferencesExactly(ctx: Context, c: Cluster, i: nat, j: nat, s: Subject)
    requires i < |c.configs| && j < |c.configs[i].spec.targets|
    ensures TargetReferences(ctx, c, i, j, s) <==>
            exists w: nat :: w < |c.workloads| && ReferencesAt(ctx, c, i, j, s, w)
  {
    var target := c.configs[i].spec.targets[j];
    var read := ReadWorkload(c, WorkloadKey(target.kind, target.name, s.namespace), ctx.Fault(ReadReference(i, j)));
    if TargetReferences(ctx, c, i, j, s) {
      assert ReferencesAt(ctx, c, i, j, s, read.value);
    }
  }

  /** A config is concerned when it is in the resource's namespace, is not ignored, and either lists the resource or,
      with auto-reload, has a readable target workload in that namespace that references it. */
  lemma ConfigConcernedExactly(ctx: Context, c: Cluster, i: nat, s: Subject)
    requires i < |c.configs| && IsResourceKind(s.kind)
    ensures var config := c.configs[i];
            var lists := config.spec.watched.Some? &&
                         s.name in (if s.kind == "Secret" then config.spec.watched.value.secrets
                                    else config.spec.watched.value.configMaps);
            var references := exists j: nat, w: nat ::
              j < |config.spec.targets| && w < |c.workloads| && ReferencesAt(ctx, c, i, j, s, w);
            ConfigConcerned(ctx, c, i, s) <==>
              config.key.namespace == s.namespace &&
              !("reloader.stakater.com/ignore" in config.annotations &&
                config.annotations["reloader.stakater.com/ignore"] == "true") &&
              (lists || (config.spec.autoReloadAll && references))
  {
    var config := c.configs[i];
    if AnyTargetReferences(ctx, c, i, 0, s) {
      var j: nat :| j < |config.spec.targets| && TargetReferences(ctx, c, i, j, s);
      TargetReferencesExactly(ctx, c, i, j, s);
    } else if j: nat, w: nat :| j < |config.spec.targets| && w < |c.workloads| && ReferencesAt(ctx, c, i, j, s, w) {
      TargetReferencesExactly(ctx, c, i, j, s);
    }
  }

  function ConfigsConcerned(ctx: Context, c: Cluster, s: Subject): nat -> bool
  {
    (i: nat) => i < |c.configs| && ConfigConcerned(ctx, c, i, s)
  }

  function ConfigsWatching(ctx: Context, c: Cluster, s: Subject): seq<ReloaderConfig>
  {
    Collect(c.configs, |c.configs|, ConfigsConcerned(ctx, c, s), Identity())
  }

  method FindReloaderConfigsWatchingResource(ctx: Context, api: ApiServer, s: Subject)
    returns (r: Result<seq<ReloaderConfig>>)
    ensures r == match ctx.Fault(ListConfigs) {
                   case Some(m) => Err(m)
                   case None => Ok(ConfigsWatching(ctx, api.state, s))
                 }
  {
    if ctx.Fault(ListConfigs).Some? {
      return Err(ctx.Fault(ListConfigs).value);
    }
    var items := api.state.configs;
    var result: seq<ReloaderConfig> := [];
    for i := 0 to |items|
      invariant result == Collect(items, i, ConfigsConcerned(ctx, api.state, s), Identity())
    {
      var config := items[i];
      if config.key.namespace != s.namespace || Lookup(config.annotations, ANNOTATION_IGNORE) == "true" {
        continue;
      }
      if s.name in WatchList(config, s.kind) {
        result := result + [config];
        continue;
      }
      if config.spec.autoReloadAll {
        if AnyTargetReferences(ctx, api.state, i, 0, s) {
          result := result + [config];
        }
      }
    }
    return Ok(result);
  }

  /* ---- Annotated workloads ---- */

  /** shouldReloadFromAnnotations. */
  function ShouldReloadFromAnnotations(
      annotations: map<string, string>, spec: PodSpec, kind: string, name: string,
      resourceAnnotations: map<string, string>): bool
  {
    var references := CheckPodSpecReferencesResource(spec, kind, name);
    if Lookup(annotations, ANNOTATION_IGNORE) == "true" then false
    else if Lookup(annotations, ANNOTATION_AUTO) == "true" && references then true
    else if Lookup(annotations, ANNOTATION_AUTO) == "false" then false
    else if kind == KIND_SECRET && Lookup(annotations, ANNOTATION_SECRET_AUTO) == "true" && references then true
    else if kind == KIND_CONFIGMAP && Lookup(annotations, ANNOTATION_CONFIGMAP_AUTO) == "true" && references then true
    else
      var reloadList :=
        if kind == KIND_SECRET then Lookup(annotations, ANNOTATION_SECRET_RELOAD)
        else if kind == KIND_CONFIGMAP then Lookup(annotations, ANNOTATION_CONFIGMAP_RELOAD)
        else "";
      if reloadList != "" then name in ParseList(reloadList)
      else
        Lookup(annotations, ANNOTATION_SEARCH) == "true" &&
        Lookup(resourceAnnotations, ANNOTATION_MATCH) == "true" && references
  }

  /** The three annotations that apply to one kind of resource. */
  ghost predicate On(annotations: map<string, string>, key: string)
  {
    key in annotations && annotations[key] == "true"
  }

  ghost function AutoKeys(kind: string): set<string>
  {
    {"reloader.stakater.com/auto",
     if kind == "Secret" then "secret.reloader.stakater.com/auto" else "configmap.reloader.stakater.com/auto"}
  }

  ghost function ListKey(kind: string): string
  {
    if kind == "Secret" then "secret.reloader.stakater.com/reload" else "configmap.reloader.stakater.com/reload"
  }

  ghost predicate Searches(annotations: map<string, string>, kind: string, resourceAnnotations: map<string, string>)
  {
    Lookup(annotations, ListKey(kind)) == "" && On(annotations, "reloader.stakater.com/search") &&
    On(resourceAnnotations, "reloader.stakater.com/match")
  }

  /** The precedence of the annotations in one formula: ignore and auto=false veto; naming the resource is enough;
      otherwise the pod spec must reference it and either an auto annotation is on, or search meets match
      while no list of names is given. */
  lemma AnnotationPrecedence(
      annotations: map<string, string>, spec: PodSpec, kind: string, name: string,
      resourceAnnotations: map<string, string>)
    requires IsResourceKind(kind)
    ensures ShouldReloadFromAnnotations(annotations, spec, kind, name, resourceAnnotations) <==>
            && !On(annotations, "reloader.stakater.com/ignore")
            && !("reloader.stakater.com/auto" in annotations && annotations["reloader.stakater.com/auto"] == "false")
            && (|| name in ParseList(Lookup(annotations, ListKey(kind)))
                || (References(spec, kind, name) &&
                    ((exists key :: key in AutoKeys(kind) && On(annotations, key)) ||
                     Searches(annotations, kind, resourceAnnotations))))
  {
    assert On(annotations, ANNOTATION_AUTO) ==> ANNOTATION_AUTO in AutoKeys(kind);
    var typed := if kind == "Secret" then ANNOTATION_SECRET_AUTO else ANNOTATION_CONFIGMAP_AUTO;
    assert On(annotations, typed) ==> typed in AutoKeys(kind);
    assert ParseList("") == [];
  }

  function PauseAnnotation(kind: string): string
  {
    if kind == KIND_DEPLOYMENT then ANNOTATION_DEPLOYMENT_PAUSE
    else if kind == KIND_STATEFULSET then ANNOTATION_STATEFULSET_PAUSE
    else ANNOTATION_DAEMONSET_PAUSE
  }

  function AnnotatedTarget(w: Workload): Target
  {
    Target(w.key,
           GetDefaultRolloutStrategy(Lookup(w.annotations, ANNOTATION_ROLLOUT_STRATEGY), ROLLOUT_ROLLOUT),
           GetDefaultReloadStrategy("", RELOAD_ENV_VARS),
           Lookup(w.annotations, PauseAnnotation(w.key.kind)),
           false,
           None)
  }

  function AsTarget(): Workload -> Target
  {
    w => AnnotatedTarget(w)
  }

  predicate WorkloadConcerned(w: Workload, workloadKind: string, s: Subject, resourceAnnotations: map<string, string>)
  {
    w.key.kind == workloadKind && w.key.namespace == s.namespace &&
    ShouldReloadFromAnnotations(w.annotations, w.template.spec, s.kind, s.name, resourceAnnotations)
  }

  function WorkloadsConcerned(c: Cluster, workloadKind: string, s: Subject,
                              resourceAnnotations: map<string, string>): nat -> bool
  {
    (i: nat) => i < |c.workloads| && WorkloadConcerned(c.workloads[i], workloadKind, s, resourceAnnotations)
  }

  function AnnotatedOfKind(c: Cluster, workloadKind: string, s: Subject,
                           resourceAnnotations: map<string, string>): seq<Target>
  {
    Collect(c.workloads, |c.workloads|, WorkloadsConcerned(c, workloadKind, s, resourceAnnotations), AsTarget())
  }

  function Annotated(c: Cluster, s: Subject, resourceAnnotations: map<string, string>): seq<Target>
  {
    AnnotatedOfKind(c, KIND_DEPLOYMENT, s, resourceAnnotations) +
    AnnotatedOfKind(c, KIND_STATEFULSET, s, resourceAnnotations) +
    AnnotatedOfKind(c, KIND_DAEMONSET, s, resourceAnnotations)
  }

  function Lower(s: string): string
  {
    seq(|s|, i requires 0 <= i < |s| => if 'A' <= s[i] <= 'Z' then s[i] - 'A' + 'a' else s[i])
  }

  /** What the annotations of a workload ask for: roll out unless they say otherwise, always by env-vars, with the pause
      period from the annotation named after the kind. */
  ghost function AnnotatedAs(w: Workload): Target
  {
    var strategy := FirstNonEmpty([Lookup(w.annotations, "reloader.stakater.com/rollout-strategy"), "rollout"]);
    var period := Lookup(w.annotations, Lower(w.key.kind) + ".reloader.stakater.com/pause-period");
    Target(w.key, strategy, "env-vars", period, false, None)
  }

  /** The targets from annotations are the concerned Deployments, StatefulSets and DaemonSets of the resource's
      namespace, each reloaded as its annotations ask. */
  lemma AnnotatedAreExact(c: Cluster, s: Subject, resourceAnnotations: map<string, string>, t: Target)
    ensures t in Annotated(c, s, resourceAnnotations) <==>
            exists w :: w in c.workloads && t == AnnotatedAs(w) && IsWorkloadKind(w.key.kind) &&
                        w.key.namespace == s.namespace &&
                        ShouldReloadFromAnnotations(w.annotations, w.template.spec, s.kind, s.name,
                                                    resourceAnnotations)
  {
    AnnotatedOfKindIsExact(c, KIND_DEPLOYMENT, s, resourceAnnotations, t);
    AnnotatedOfKindIsExact(c, KIND_STATEFULSET, s, resourceAnnotations, t);
    AnnotatedOfKindIsExact(c, KIND_DAEMONSET, s, resourceAnnotations, t);
    forall w | w in c.workloads && IsWorkloadKind(w.key.kind) ensures AnnotatedTarget(w) == AnnotatedAs(w) {
      AnnotatedTargetIs(w);
    }
  }

  lemma AnnotatedTargetIs(w: Workload)
    requires IsWorkloadKind(w.key.kind)
    ensures AnnotatedTarget(w) == AnnotatedAs(w)
  {
    var strategy := Lookup(w.annotations, ANNOTATION_ROLLOUT_STRATEGY);
    assert [strategy, "rollout"][0] == strategy && [strategy, "rollout"][1] == "rollout";
    PauseAnnotationIs(w.key.kind);
  }

  lemma PauseAnnotationIs(kind: string)
    requires IsWorkloadKind(kind)
    ensures PauseAnnotation(kind) == Lower(kind) + ".reloader.stakater.com/pause-period"
  {
    assert Lower(KIND_DEPLOYMENT) == "deployment";
    assert Lower(KIND_STATEFULSET) == "statefulset";
    assert Lower(KIND_DAEMONSET) == "daemonset";
  }

  lemma AnnotatedOfKindIsExact(c: Cluster, workloadKind: string, s: Subject,
                               resourceAnnotations: map<string, string>, t: Target)
    ensures t in AnnotatedOfKind(c, workloadKind, s, resourceAnnotations) <==>
            exists w :: w in c.workloads && WorkloadConcerned(w, workloadKind, s, resourceAnnotations) &&
                        t == AnnotatedTarget(w)
  {
    var keep := WorkloadsConcerned(c, workloadKind, s, resourceAnnotations);
    InCollect(c.workloads, |c.workloads|, keep, AsTarget(), t);
    forall i: nat | i < |c.workloads|
      ensures keep(i) <==> WorkloadConcerned(c.workloads[i], workloadKind, s, resourceAnnotations)
      ensures AsTarget()(c.workloads[i]) == AnnotatedTarget(c.workloads[i])
    {
    }
  }

  /** The first of the three lists that cannot be read. */
  function ListFault(ctx: Context): Option<string>
  {
    if ctx.Fault(ListWorkloads(KIND_DEPLOYMENT)).Some? then ctx.Fault(ListWorkloads(KIND_DEPLOYMENT))
    else if ctx.Fault(ListWorkloads(KIND_STATEFULSET)).Some? then ctx.Fault(ListWorkloads(KIND_STATEFULSET))
    else ctx.Fault(ListWorkloads(KIND_DAEMONSET))
  }

  lemma NextConcerned(c: Cluster, workloadKind: string, s: Subject, resourceAnnotations: map<string, string>, i: nat)
    requires i < |c.workloads|
    ensures var concerned := WorkloadsConcerned(c, workloadKind, s, resourceAnnotations);
            Collect(c.workloads, i + 1, concerned, AsTarget()) ==
            Collect(c.workloads, i, concerned, AsTarget()) +
            (if WorkloadConcerned(c.workloads[i], workloadKind, s, resourceAnnotations)
             then [AnnotatedTarget(c.workloads[i])] else [])
  {
  }

  /** One of the three list-and-filter loops. */
  method FindOfKind(ctx: Context, api: ApiServer, workloadKind: string, s: Subject,
                    resourceAnnotations: map<string, string>)
    returns (r: Result<seq<Target>>)
    ensures r == match ctx.Fault(ListWorkloads(workloadKind)) {
                   case Some(m) => Err(m)
                   case None => Ok(AnnotatedOfKind(api.state, workloadKind, s, resourceAnnotations))
                 }
  {
    if ctx.Fault(ListWorkloads(workloadKind)).Some? {
      return Err(ctx.Fault(ListWorkloads(workloadKind)).value);
    }
    var items := api.state.workloads;
    ghost var concerned := WorkloadsConcerned(api.state, workloadKind, s, resourceAnnotations);
    var targets: seq<Target> := [];
    for i := 0 to |items|
      invariant targets == Collect(items, i, concerned, AsTarget())
    {
      NextConcerned(api.state, workloadKind, s, resourceAnnotations, i);
      if WorkloadConcerned(items[i], workloadKind, s, resourceAnnotations) {
        targets := targets + [AnnotatedTarget(items[i])];
      }
    }
    return Ok(targets);
  }

  method FindWorkloadsWithAnnotations(ctx: Context, api: ApiServer, s: Subject,
                                      resourceAnnotations: map<string, string>)
    returns (r: Result<seq<Target>>)
    ensures r == match ListFault(ctx) {
                   case Some(m) => Err(m)
                   case None => Ok(Annotated(api.state, s, resourceAnnotations))
                 }
  {
    var deployments := FindOfKind(ctx, api, KIND_DEPLOYMENT, s, resourceAnnotations);
    if deployments.Err? {
      return deployments;
    }
    var statefulSets := FindOfKind(ctx, api, KIND_STATEFULSET, s, resourceAnnotations);
    if statefulSets.Err? {
      return statefulSets;
    }
    var daemonSets := FindOfKind(ctx, api, KIND_DAEMONSET, s, resourceAnnotations);
    if daemonSets.Err? {
      return daemonSets;
    }
    return Ok(deployments.value + statefulSets.value + daemonSets.value);
  }
}
