/** The controller's own writes do not disturb what it discovers. */
module Fixpoint {
  import opened Common
  import opened Helpers
  import opened Hash
  import opened Kube
  import opened Api
  import opened PodReferences
  import opened Template
  import opened Updater
  import opened Finder
  import opened Discovery
  import opened Reload
  import opened Events
  import opened Controller
  import opened Queue
  import opened Status

  /* ---- What discovery cannot tell apart ---- */

  /** Old variables keep their references; new ones are plain values. */
  ghost predicate SameEnv(env: seq<EnvVar>, env': seq<EnvVar>)
  {
    && |env| <= |env'|
    && (forall i :: 0 <= i < |env| ==> env'[i].valueFrom == env[i].valueFrom)
    && (forall i :: |env| <= i < |env'| ==> env'[i].valueFrom == None)
  }

  ghost predicate SameContainer(c: Container, c': Container)
  {
    SameEnv(c.env, c'.env) && c'.envFrom == c.envFrom
  }

  ghost predicate SameSpec(s: PodSpec, s': PodSpec)
  {
    && |s'.containers| == |s.containers|
    && (forall i :: 0 <= i < |s.containers| ==> SameContainer(s.containers[i], s'.containers[i]))
    && s'.initContainers == s.initContainers
    && s'.volumes == s.volumes
  }

  ghost predicate SameWorkload(w: Workload, w': Workload)
  {
    && w'.key == w.key
    && w'.annotations - {ANNOTATION_LAST_RELOAD} == w.annotations - {ANNOTATION_LAST_RELOAD}
    && SameSpec(w.template.spec, w'.template.spec)
  }

  ghost predicate SameResource(r: Resource, r': Resource)
  {
    r'.annotations - {ANNOTATION_LAST_HASH} == r.annotations - {ANNOTATION_LAST_HASH} &&
    r'.(annotations := r.annotations) == r
  }

  ghost predicate SameConfig(config: ReloaderConfig, config': ReloaderConfig)
  {
    config'.(status := config.status) == config
  }

  /** The clusters differ in nothing but what the controller itself writes. */
  ghost predicate Same(c: Cluster, c': Cluster)
  {
    && |c'.configs| == |c.configs|
    && (forall i :: 0 <= i < |c.configs| ==> SameConfig(c.configs[i], c'.configs[i]))
    && |c'.resources| == |c.resources|
    && (forall i :: 0 <= i < |c.resources| ==> SameResource(c.resources[i], c'.resources[i]))
    && |c'.workloads| == |c.workloads|
    && (forall i :: 0 <= i < |c.workloads| ==> SameWorkload(c.workloads[i], c'.workloads[i]))
  }

  lemma SameTransitive(a: Cluster, b: Cluster, c: Cluster)
    requires Same(a, b) && Same(b, c)
    ensures Same(a, c)
  {
  }

  /* ---- References do not change ---- */

  lemma SameReferencesInContainer(c: Container, c': Container, kind: string, name: string)
    requires SameContainer(c, c')
    ensures ContainerNames(c, kind, name) <==> ContainerNames(c', kind, name)
  {
    if e :| e in c.env && EnvNames(e, kind, name) {
      var i :| 0 <= i < |c.env| && c.env[i] == e;
      assert EnvNames(c'.env[i], kind, name) && c'.env[i] in c'.env;
    }
    if e :| e in c'.env && EnvNames(e, kind, name) {
      var i :| 0 <= i < |c'.env| && c'.env[i] == e;
      assert i < |c.env|;
      assert EnvNames(c.env[i], kind, name) && c.env[i] in c.env;
    }
  }

  lemma SameReferences(s: PodSpec, s': PodSpec, kind: string, name: string)
    requires SameSpec(s, s')
    ensures CheckPodSpecReferencesResource(s, kind, name) == CheckPodSpecReferencesResource(s', kind, name)
  {
    forall i | 0 <= i < |s.containers|
      ensures ContainerNames(s.containers[i], kind, name) <==> ContainerNames(s'.containers[i], kind, name)
    {
      SameReferencesInContainer(s.containers[i], s'.containers[i], kind, name);
    }
    if c :| c in s.containers && ContainerNames(c, kind, name) {
      var i :| 0 <= i < |s.containers| && s.containers[i] == c;
      assert s'.containers[i] in s'.containers;
    }
    if c :| c in s'.containers && ContainerNames(c, kind, name) {
      var i :| 0 <= i < |s'.containers| && s'.containers[i] == c;
      assert s.containers[i] in s.containers;
    }
  }

  /* ---- Lookups by key find the same position ---- */

  lemma SameFirst<T>(xs: seq<T>, ys: seq<T>, p: T -> bool)
    requires |xs| == |ys| && forall i :: 0 <= i < |xs| ==> p(xs[i]) == p(ys[i])
    ensures First(xs, p) == First(ys, p)
  {
  }

  lemma SameReads(c: Cluster, c': Cluster)
    requires Same(c, c')
    ensures forall key, fault :: ReadWorkload(c, key, fault) == ReadWorkload(c', key, fault)
    ensures forall kind, key, fault :: ReadResource(c, kind, key, fault) == ReadResource(c', kind, key, fault)
    ensures forall key, fault :: ReadConfig(c, key, fault) == ReadConfig(c', key, fault)
  {
  }

  /* ---- Discovery decides the same ---- */

  lemma SameLookup(a: map<string, string>, b: map<string, string>, own: string, key: string)
    requires a - {own} == b - {own} && key != own
    ensures Lookup(a, key) == Lookup(b, key)
  {
    assert key in a <==> key in a - {own};
    assert key in b <==> key in b - {own};
  }

  const CONFIGURING_ANNOTATIONS := {
    ANNOTATION_IGNORE, ANNOTATION_AUTO, ANNOTATION_SEARCH, ANNOTATION_SECRET_AUTO, ANNOTATION_CONFIGMAP_AUTO,
    ANNOTATION_SECRET_RELOAD, ANNOTATION_CONFIGMAP_RELOAD, ANNOTATION_ROLLOUT_STRATEGY,
    ANNOTATION_DEPLOYMENT_PAUSE, ANNOTATION_STATEFULSET_PAUSE, ANNOTATION_DAEMONSET_PAUSE}

  /** None of the annotations that configure reloading is one that the controller writes on workloads. */
  lemma NotWritten(key: string)
    requires key in CONFIGURING_ANNOTATIONS
    ensures key != ANNOTATION_LAST_RELOAD
  {
    assert ANNOTATION_LAST_RELOAD[0] == 'r' && ANNOTATION_LAST_RELOAD[22] == 'l';
    assert key[0] != 'r' || key[22] != 'l';
  }

  lemma ConfiguringAnnotation(a: map<string, string>, b: map<string, string>, key: string)
    requires a - {ANNOTATION_LAST_RELOAD} == b - {ANNOTATION_LAST_RELOAD}
    requires key in CONFIGURING_ANNOTATIONS
    ensures Lookup(a, key) == Lookup(b, key)
  {
    NotWritten(key);
    SameLookup(a, b, ANNOTATION_LAST_RELOAD, key);
  }

  lemma ConfiguringAnnotations(a: map<string, string>, b: map<string, string>)
    requires a - {ANNOTATION_LAST_RELOAD} == b - {ANNOTATION_LAST_RELOAD}
    ensures forall key :: key in CONFIGURING_ANNOTATIONS ==> Lookup(a, key) == Lookup(b, key)
  {
    forall key | key in CONFIGURING_ANNOTATIONS ensures Lookup(a, key) == Lookup(b, key) {
      ConfiguringAnnotation(a, b, key);
    }
  }

  lemma SameAnnotated(w: Workload, w': Workload, workloadKind: string, s: Subject,
                      ra: map<string, string>, ra': map<string, string>)
    requires SameWorkload(w, w') && ra - {ANNOTATION_LAST_HASH} == ra' - {ANNOTATION_LAST_HASH}
    ensures WorkloadConcerned(w, workloadKind, s, ra) == WorkloadConcerned(w', workloadKind, s, ra')
    ensures AnnotatedTarget(w) == AnnotatedTarget(w')
  {
    ConfiguringAnnotations(w.annotations, w'.annotations);
    SameReferences(w.template.spec, w'.template.spec, s.kind, s.name);
    SameLookup(ra, ra', ANNOTATION_LAST_HASH, ANNOTATION_MATCH);
  }

  /** A target without the status of its config. */
  function Bare(t: Target): Target
  {
    match t.config case None => t case Some(config) => t.(config := Some(config.(status := EMPTY_STATUS)))
  }

  ghost predicate SameTargets(ts: seq<Target>, ts': seq<Target>)
  {
    |ts| == |ts'| && forall i :: 0 <= i < |ts| ==> Bare(ts[i]) == Bare(ts'[i])
  }

  lemma SameConcerned(ctx: Context, c: Cluster, c': Cluster, i: nat, s: Subject)
    requires Same(c, c') && i < |c.configs|
    ensures ConfigConcerned(ctx, c, i, s) == ConfigConcerned(ctx, c', i, s)
  {
    assert SameConfig(c.configs[i], c'.configs[i]);
    forall j: nat | j < |c.configs[i].spec.targets|
      ensures TargetReferences(ctx, c, i, j, s) == TargetReferences(ctx, c', i, j, s) {
      SameReads(c, c');
      var target := c.configs[i].spec.targets[j];
      var key := WorkloadKey(target.kind, target.name,
                             GetDefaultNamespace(target.namespace, c.configs[i].key.namespace));
      match ReadWorkload(c, key, ctx.Fault(ReadReference(i, j)))
      case Err(_) =>
      case Ok(w) =>
        assert SameWorkload(c.workloads[w], c'.workloads[w]);
        SameReferences(c.workloads[w].template.spec, c'.workloads[w].template.spec, s.kind, s.name);
    }
  }

  lemma SameConfigs(ctx: Context, c: Cluster, c': Cluster, s: Subject)
    requires Same(c, c')
    ensures |ConfigsFor(ctx, c, s)| == |ConfigsFor(ctx, c', s)|
    ensures forall k :: 0 <= k < |ConfigsFor(ctx, c, s)| ==>
            SameConfig(ConfigsFor(ctx, c, s)[k], ConfigsFor(ctx, c', s)[k])
  {
    var keep, keep' := WatchingAndNotIgnoring(ctx, c, s), WatchingAndNotIgnoring(ctx, c', s);
    forall i: nat | i < |c.configs| ensures keep(i) == keep'(i) {
      SameConcerned(ctx, c, c', i, s);
      assert SameConfig(c.configs[i], c'.configs[i]);
    }
    KeptSame(|c.configs|, keep, keep');
    ConfigsAreExact(ctx, c, s);
    ConfigsAreExact(ctx, c', s);
  }

  lemma {:induction false} SameConfigTargets(o: Options, configs: seq<ReloaderConfig>, configs': seq<ReloaderConfig>)
    requires |configs| == |configs'| && forall k :: 0 <= k < |configs| ==> SameConfig(configs[k], configs'[k])
    ensures SameTargets(ConfigTargets(o, configs), ConfigTargets(o, configs'))
  {
    if configs == [] {
    } else {
      var n := |configs| - 1;
      SameConfigTargets(o, configs[..n], configs'[..n]);
      assert SameConfig(configs[n], configs'[n]);
      assert SameTargets(TargetsOf(o, configs[n]), TargetsOf(o, configs'[n]));
    }
  }

  lemma SameAnnotatedOfKind(c: Cluster, c': Cluster, workloadKind: string, s: Subject,
                            ra: map<string, string>, ra': map<string, string>)
    requires Same(c, c') && ra - {ANNOTATION_LAST_HASH} == ra' - {ANNOTATION_LAST_HASH}
    ensures AnnotatedOfKind(c, workloadKind, s, ra) == AnnotatedOfKind(c', workloadKind, s, ra')
  {
    var keep, keep' := WorkloadsConcerned(c, workloadKind, s, ra), WorkloadsConcerned(c', workloadKind, s, ra');
    forall i: nat | i < |c.workloads|
      ensures keep(i) == keep'(i) && AsTarget()(c.workloads[i]) == AsTarget()(c'.workloads[i]) {
      SameAnnotated(c.workloads[i], c'.workloads[i], workloadKind, s, ra, ra');
    }
    KeptSame(|c.workloads|, keep, keep');
    CollectIsKept(c.workloads, |c.workloads|, keep, AsTarget());
    CollectIsKept(c'.workloads, |c'.workloads|, keep', AsTarget());
  }

  lemma SameResourceAnnotations(ctx: Context, c: Cluster, c': Cluster, s: Subject)
    requires Same(c, c')
    ensures ResourceAnnotations(ctx, c, s) - {ANNOTATION_LAST_HASH} ==
            ResourceAnnotations(ctx, c', s) - {ANNOTATION_LAST_HASH}
  {
    SameReads(c, c');
    match ReadResource(c, s.kind, ObjectKey(s.namespace, s.name), ctx.Fault(GetAnnotatedResource))
    case Err(_) =>
    case Ok(i) => assert SameResource(c.resources[i], c'.resources[i]);
  }

  /** Discovery gives the same targets, up to the status of their configs. */
  lemma SameDiscovered(ctx: Context, o: Options, c: Cluster, c': Cluster, s: Subject)
    requires Same(c, c')
    ensures match Discovered(ctx, o, c, s)
            case Err(m) => Discovered(ctx, o, c', s) == Err(m)
            case Ok(found) =>
              Discovered(ctx, o, c', s).Ok? && SameTargets(found.targets, Discovered(ctx, o, c', s).value.targets)
  {
    SameConfigs(ctx, c, c', s);
    SameConfigTargets(o, ConfigsFor(ctx, c, s), ConfigsFor(ctx, c', s));
    var ra, ra' := ResourceAnnotations(ctx, c, s), ResourceAnnotations(ctx, c', s);
    SameResourceAnnotations(ctx, c, c', s);
    SameAnnotatedOfKind(c, c', KIND_DEPLOYMENT, s, ra, ra');
    SameAnnotatedOfKind(c, c', KIND_STATEFULSET, s, ra, ra');
    SameAnnotatedOfKind(c, c', KIND_DAEMONSET, s, ra, ra');
  }

  /** And so does filtering. */
  lemma SameFiltered(ctx: Context, c: Cluster, c': Cluster, ts: seq<Target>, ts': seq<Target>, s: Subject)
    requires Same(c, c') && SameTargets(ts, ts')
    ensures SameTargets(Filtered(ctx, c, ts, s), Filtered(ctx, c', ts', s))
  {
    var keep, keep' := Passing(ctx, c, ts, s), Passing(ctx, c', ts', s);
    SameReads(c, c');
    forall i: nat | i < |ts| ensures keep(i) == keep'(i) {
      assert Bare(ts[i]) == Bare(ts'[i]);
      match ReadWorkload(c, ts[i].key, ctx.Fault(ReadFiltered(i)))
      case Err(_) =>
      case Ok(w) =>
        assert SameWorkload(c.workloads[w], c'.workloads[w]);
        SameReferences(c.workloads[w].template.spec, c'.workloads[w].template.spec, s.kind, s.name);
    }
    KeptSame(|ts|, keep, keep');
    CollectIsKept(ts, |ts|, keep, Identity());
    CollectIsKept(ts', |ts'|, keep', Identity());
  }

  /* ---- Every write of the controller is of that kind ---- */

  lemma RewriteIsSame(t: PodTemplate, rewrite: Rewrite)
    requires Apply(t, rewrite).Ok?
    ensures SameSpec(t.spec, Apply(t, rewrite).value.spec)
  {
  }

  lemma RolledOutIsSame(ctx: Context, c: Cluster, key: WorkloadKey, trigger: Trigger, strategy: string, n: nat,
                        now: int)
    ensures Same(c, RolledOut(ctx, c, key, trigger, strategy, n, now).cluster)
  {
    var done := RolledOut(ctx, c, key, trigger, strategy, n, now);
    if done.err == None {
      var i := ReadWorkload(c, key, ctx.Fault(ReadReloaded(n))).value;
      RewriteIsSame(c.workloads[i].template, RewriteFor(ctx, trigger, strategy, now).value);
    }
  }

  lemma StampedIsSame(ctx: Context, c: Cluster, key: WorkloadKey, n: nat, now: int)
    ensures Same(c, Stamped(ctx, c, key, n, now))
  {
  }

  /** Pods and the number of writes do not matter. */
  lemma OtherwiseIsSame(c: Cluster, d: Cluster)
    requires d == c.(pods := d.pods, writes := d.writes)
    ensures Same(c, d)
  {
  }

  lemma RestartedIsSame(ctx: Context, c: Cluster, key: WorkloadKey, n: nat)
    ensures Same(c, Restarted(ctx, c, key, n).cluster)
  {
    OtherwiseIsSame(c, Restarted(ctx, c, key, n).cluster);
  }

  lemma TriggeredIsSame(ctx: Context, c: Cluster, target: Target, trigger: Trigger, n: nat, t: nat)
    ensures Same(c, Triggered(ctx, c, target, trigger, n, t).cluster)
  {
    if RolloutOf(target) == ROLLOUT_RESTART {
      RestartedIsSame(ctx, c, target.key, n);
    } else {
      TriggeredCases(ctx, c, target, trigger, n, t);
      RolledOutIsSame(ctx, c, target.key, trigger, StrategyOf(target), n, ctx.Now(t));
      var done := RolledOut(ctx, c, target.key, trigger, StrategyOf(target), n, ctx.Now(t)).cluster;
      StampedIsSame(ctx, done, target.key, n, ctx.Now(t + 1));
      SameTransitive(c, done, Stamped(ctx, done, target.key, n, ctx.Now(t + 1)));
    }
  }

  lemma ReloadOneIsSame(ctx: Context, c: Cluster, target: Target, trigger: Trigger, n: nat)
    ensures Same(c, ReloadOne(ctx, c, target, trigger, n).cluster)
  {
    ReloadOneCases(ctx, c, target, trigger, n);
    var latest := Refreshed(ctx, c, target, n);
    TriggeredIsSame(ctx, c, latest, trigger, n, READINGS * n + 1);
    EitherIsSame(c, Triggered(ctx, c, latest, trigger, n, READINGS * n + 1).cluster,
                 ReloadOne(ctx, c, target, trigger, n).cluster);
  }

  lemma EitherIsSame(c: Cluster, d: Cluster, e: Cluster)
    requires Same(c, d) && (e == c || e == d)
    ensures Same(c, e)
  {
  }

  ghost function SameAs(c: Cluster): Cluster -> bool
  {
    (d: Cluster) => Same(c, d)
  }

  lemma ExecutedIsSame(ctx: Context, c: Cluster, targets: seq<Target>, trigger: Trigger)
    ensures Same(c, Executed(ctx, c, targets, trigger).cluster)
  {
    forall d, k: nat | k < |targets| && SameAs(c)(d)
      ensures SameAs(c)(ReloadHandler(ctx, trigger)(d, targets[k], k).cluster) {
      ReloadOneIsSame(ctx, d, targets[k], trigger, k);
      SameTransitive(c, d, ReloadOne(ctx, d, targets[k], trigger, k).cluster);
    }
    LoopKeeps(ReloadHandler(ctx, trigger), c, targets, |targets|, SameAs(c));
  }

  lemma HashPersistedIsSame(ctx: Context, c: Cluster, r: Resource, hash: string)
    requires var i := FindResource(c, r.kind, r.key); i < |c.resources| && SameResource(c.resources[i], r)
    ensures Same(c, HashPersisted(ctx, c, r, hash).cluster)
  {
    var i := FindResource(c, r.kind, r.key);
    assert WithHashAnnotation(r, hash).annotations - {ANNOTATION_LAST_HASH} == r.annotations - {ANNOTATION_LAST_HASH};
  }

  lemma ReloadAndPersistIsSame(ctx: Context, c: Cluster, c': Cluster, i: nat, hash: string)
    requires Same(c, c') && i < |c.resources|
    requires FindResource(c, c.resources[i].kind, c.resources[i].key) == i
    ensures Same(c, HashPersisted(ctx, c', c.resources[i], hash).cluster)
  {
    var r := c.resources[i];
    var j := FindResource(c', r.kind, r.key);
    assert forall k :: 0 <= k < |c.resources| ==> SameResource(c.resources[k], c'.resources[k]);
    assert j == i;
    HashPersistedIsSame(ctx, c', r, hash);
    SameTransitive(c, c', HashPersisted(ctx, c', r, hash).cluster);
  }

  lemma ReloadingIsSame(ctx: Context, c: Cluster, i: nat, found: Found, trigger: Trigger, hash: string)
    requires i < |c.resources| && FindResource(c, c.resources[i].kind, c.resources[i].key) == i
    ensures var r := c.resources[i];
            Same(c, HashPersisted(ctx, Reloading(ctx, c, found, SubjectOf(r), trigger).cluster, r, hash).cluster)
  {
    var r := c.resources[i];
    ExecutedIsSame(ctx, c, Filtered(ctx, c, found.targets, SubjectOf(r)), trigger);
    ReloadAndPersistIsSame(ctx, c, Reloading(ctx, c, found, SubjectOf(r), trigger).cluster, i, hash);
  }

  lemma UpdatePassIsSame(ctx: Context, o: Options, c: Cluster, i: nat)
    requires i < |c.resources| && IsResourceKind(c.resources[i].kind)
    requires FindResource(c, c.resources[i].kind, c.resources[i].key) == i
    ensures Same(c, UpdatePass(ctx, o, c, c.resources[i]).cluster)
  {
    var s, hash := SubjectOf(c.resources[i]), ResourceHash(ctx.platform, c.resources[i]);
    match Discovered(ctx, o, c, s)
    case Err(_) =>
    case Ok(found) => ReloadingIsSame(ctx, c, i, found, Changed(s.kind, s.name, s.namespace, hash), hash);
  }

  lemma CreatePassIsSame(ctx: Context, o: Options, c: Cluster, i: nat)
    requires i < |c.resources| && IsResourceKind(c.resources[i].kind)
    requires FindResource(c, c.resources[i].kind, c.resources[i].key) == i
    ensures Same(c, CreatePass(ctx, o, c, c.resources[i]).cluster)
  {
    var r, created := c.resources[i], CreatePass(ctx, o, c, c.resources[i]).cluster;
    var s, hash := SubjectOf(r), ResourceHash(ctx.platform, r);
    match Discovered(ctx, o, c, s)
    case Err(_) => EitherIsSame(c, c, created);
    case Ok(found) =>
      var trigger := Changed(s.kind, s.name, s.namespace, hash);
      ReloadingIsSame(ctx, c, i, found, trigger, hash);
      ReloadAndPersistIsSame(ctx, c, c, i, hash);
      var d := if o.reloadOnCreate then Reloading(ctx, c, found, s, trigger).cluster else c;
      assert Same(c, HashPersisted(ctx, d, r, hash).cluster);
      EitherIsSame(c, HashPersisted(ctx, d, r, hash).cluster, created);
  }

  lemma DeletePassIsSame(ctx: Context, o: Options, c: Cluster, s: Subject)
    ensures Same(c, DeletePass(ctx, o, c, s).cluster)
  {
    match Discovered(ctx, o, c, s)
    case Err(_) =>
    case Ok(found) => ExecutedIsSame(ctx, c, Filtered(ctx, c, found.targets, s), Deleted(s.kind, s.name));
  }

  lemma ConfigPassIsSame(ctx: Context, c: Cluster, config: ReloaderConfig)
    ensures Same(c, ConfigPass(ctx, c, config).cluster)
  {
  }

  lemma ReconciledIsSame(ctx: Context, probes: (Context, Context), o: Options, c: Cluster, request: ObjectKey)
    ensures Same(c, Reconciled(ctx, probes, o, c, request).cluster)
  {
    match Dispatch(ctx, probes, o, c, request)
    case Nothing(_) =>
    case Config(i) => ConfigPassIsSame(ctx, c, c.configs[i]);
    case Existing(i) =>
      UpdatePassIsSame(ctx, o, c, i);
      CreatePassIsSame(ctx, o, c, i);
    case Gone(s) => DeletePassIsSame(ctx, o, c, s);
  }

  /* ---- Runs ---- */

  /** What the controller does: reconcile a request, or apply a queued status update. */
  datatype Action =
    | Reconciling(ctx: Context, probes: (Context, Context), request: ObjectKey)
    | UpdatingStatus(platform: Platform, item: Item, now: int)

  ghost function Act(o: Options, c: Cluster, a: Action): Cluster
  {
    match a
    case Reconciling(ctx, probes, request) => Reconciled(ctx, probes, o, c, request).cluster
    case UpdatingStatus(platform, item, now) =>
      var i := FindConfig(c, item.config);
      if i < |c.configs| then PutConfigStatus(c, i, WithItem(platform, c.configs[i].status, item, now)) else c
  }

  ghost function ActAll(o: Options, c: Cluster, actions: seq<Action>): Cluster
  {
    if actions == [] then c
    else
      var n := |actions| - 1;
      Act(o, ActAll(o, c, actions[..n]), actions[n])
  }

  lemma {:induction false} ActAllIsSame(o: Options, c: Cluster, actions: seq<Action>)
    ensures Same(c, ActAll(o, c, actions))
  {
    if actions == [] {
    } else {
      var n := |actions| - 1;
      ActAllIsSame(o, c, actions[..n]);
      var d := ActAll(o, c, actions[..n]);
      match actions[n] {
        case Reconciling(ctx, probes, request) => ReconciledIsSame(ctx, probes, o, d, request);
        case UpdatingStatus(_, _, _) =>
      }
      SameTransitive(c, d, Act(o, d, actions[n]));
    }
  }

  /** After any run of the controller without user edits, whatever fails, discovery and filtering for any resource
      give the same targets as before, in the same order, up to the status of their configs. */
  lemma DiscoveryIsFixpoint(o: Options, c: Cluster, actions: seq<Action>, ctx: Context, s: Subject)
    ensures var c' := ActAll(o, c, actions);
            match Discovered(ctx, o, c, s)
            case Err(m) => Discovered(ctx, o, c', s) == Err(m)
            case Ok(found) =>
              Discovered(ctx, o, c', s).Ok? &&
              var found' := Discovered(ctx, o, c', s).value;
              SameTargets(found.targets, found'.targets) &&
              SameTargets(Filtered(ctx, c, found.targets, s), Filtered(ctx, c', found'.targets, s))
  {
    var c' := ActAll(o, c, actions);
    ActAllIsSame(o, c, actions);
    SameDiscovered(ctx, o, c, c', s);
    if Discovered(ctx, o, c, s).Ok? {
      SameFiltered(ctx, c, c', Discovered(ctx, o, c, s).value.targets, Discovered(ctx, o, c', s).value.targets, s);
    }
  }
}
