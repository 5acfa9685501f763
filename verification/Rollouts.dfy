/** Retrying a reconcile does not roll a workload out again: the value written to the environment depends on the
    data alone, so the template changes at most once more often than the data does. */
module Rollouts {
  import opened Common
  import opened Helpers
  import opened Hash
  import opened Kube
  import opened Api
  import opened Template
  import opened Updater
  import opened Finder
  import opened Discovery
  import opened Reload
  import opened Events
  import opened Controller
  import opened Fixpoint
  import opened Quiescence

  /** What is observed: a workload, and the variable that stands for one resource in its template. */
  datatype Watch = Watch(workload: WorkloadKey, kind: string, key: ObjectKey)
  {
    function Variable(): string
    {
      GetEnvVarName(kind, key.name)
    }
  }

  function ValueIn(t: PodTemplate, name: string): Option<string>
  {
    LookupEnv(FirstEnv(t), name)
  }

  /** The workload's pod template. A change of it is a rollout. */
  function TemplateOf(c: Cluster, key: WorkloadKey): Option<PodTemplate>
  {
    var i := FindWorkload(c, key);
    if i < |c.workloads| then Some(c.workloads[i].template) else None
  }

  /** The value of the variable in the workload's template. */
  function Value(c: Cluster, w: Watch): Option<string>
  {
    match TemplateOf(c, w.workload)
    case None => None
    case Some(t) => ValueIn(t, w.Variable())
  }

  /** The hash of the resource's present data. */
  ghost function DataHash(x: Platform, c: Cluster, w: Watch): string
    requires FindResource(c, w.kind, w.key) < |c.resources|
  {
    ResourceHash(x, The(c, w.kind, w.key))
  }

  ghost predicate Exists(c: Cluster, w: Watch)
  {
    IsResourceKind(w.kind) && FindResource(c, w.kind, w.key) < |c.resources|
  }

  /* ---- One reload ---- */

  function VariableOf(trigger: Trigger): string
  {
    match trigger
    case Changed(kind, name, _, _) => GetEnvVarName(kind, name)
    case Deleted(kind, name) => GetEnvVarName(kind, name)
  }

  /** The variable keeps its value, or gets the hash that the trigger carries. */
  ghost predicate KeptOr(was: Option<string>, now: Option<string>, name: string, trigger: Trigger)
  {
    now == was || (VariableOf(trigger) == name && (trigger.Changed? ==> now == Some(trigger.hash)))
  }

  lemma RewriteValue(ctx: Context, t: PodTemplate, trigger: Trigger, strategy: string, now: int, name: string)
    requires RewriteFor(ctx, trigger, strategy, now).Ok?
    requires Apply(t, RewriteFor(ctx, trigger, strategy, now).value).Ok?
    ensures KeptOr(ValueIn(t, name), ValueIn(Apply(t, RewriteFor(ctx, trigger, strategy, now).value).value, name), name,
                   trigger)
  {
    var rewrite := RewriteFor(ctx, trigger, strategy, now).value;
    if t.spec.containers != [] {
      ApplyTouchesLittle(t, rewrite);
      match Assignment(rewrite)
      case None =>
      case Some((variable, value)) => PutThenLookup(FirstEnv(t), variable, value, name);
    }
  }

  lemma PutWorkloadValue(c: Cluster, i: nat, t: PodTemplate, w: Watch)
    requires i < |c.workloads| && i == FindWorkload(c, c.workloads[i].key)
    ensures Value(PutWorkload(c, i, c.workloads[i].(template := t)), w) ==
            if c.workloads[i].key == w.workload then ValueIn(t, w.Variable()) else Value(c, w)
  {
    var c' := PutWorkload(c, i, c.workloads[i].(template := t));
    SameFirst(c.workloads, c'.workloads, (x: Workload) => x.key == w.workload);
  }

  lemma RolledOutValue(ctx: Context, c: Cluster, key: WorkloadKey, trigger: Trigger, strategy: string, n: nat, now: int,
                       w: Watch)
    ensures KeptOr(Value(c, w), Value(RolledOut(ctx, c, key, trigger, strategy, n, now).cluster, w), w.Variable(),
                   trigger)
  {
    var done := RolledOut(ctx, c, key, trigger, strategy, n, now);
    if done.err == None {
      var i := ReadWorkload(c, key, ctx.Fault(ReadReloaded(n))).value;
      var t := Apply(c.workloads[i].template, RewriteFor(ctx, trigger, strategy, now).value).value;
      RewriteValue(ctx, c.workloads[i].template, trigger, strategy, now, w.Variable());
      PutWorkloadValue(c, i, t, w);
    }
  }

  lemma StampedValue(ctx: Context, c: Cluster, key: WorkloadKey, n: nat, now: int, w: Watch)
    ensures Value(Stamped(ctx, c, key, n, now), w) == Value(c, w)
  {
    var c' := Stamped(ctx, c, key, n, now);
    SameFirst(c.workloads, c'.workloads, (x: Workload) => x.key == w.workload);
  }

  lemma TriggeredValue(ctx: Context, c: Cluster, target: Target, trigger: Trigger, n: nat, t: nat, w: Watch)
    ensures KeptOr(Value(c, w), Value(Triggered(ctx, c, target, trigger, n, t).cluster, w), w.Variable(), trigger)
  {
    if RolloutOf(target) == ROLLOUT_RESTART {
      assert Restarted(ctx, c, target.key, n).cluster.workloads == c.workloads;
    } else {
      TriggeredCases(ctx, c, target, trigger, n, t);
      RolledOutValue(ctx, c, target.key, trigger, StrategyOf(target), n, ctx.Now(t), w);
      StampedValue(ctx, RolledOut(ctx, c, target.key, trigger, StrategyOf(target), n, ctx.Now(t)).cluster, target.key,
                   n, ctx.Now(t + 1), w);
    }
  }

  ghost function KeptOrSince(c: Cluster, trigger: Trigger, w: Watch): Cluster -> bool
  {
    (d: Cluster) => KeptOr(Value(c, w), Value(d, w), w.Variable(), trigger)
  }

  lemma ReloadOneValue(ctx: Context, c: Cluster, target: Target, trigger: Trigger, n: nat, w: Watch)
    ensures KeptOr(Value(c, w), Value(ReloadOne(ctx, c, target, trigger, n).cluster, w), w.Variable(), trigger)
  {
    ReloadOneCases(ctx, c, target, trigger, n);
    TriggeredValue(ctx, c, Refreshed(ctx, c, target, n), trigger, n, READINGS * n + 1, w);
  }

  lemma ExecutedValue(ctx: Context, c: Cluster, targets: seq<Target>, trigger: Trigger, w: Watch)
    ensures KeptOr(Value(c, w), Value(Executed(ctx, c, targets, trigger).cluster, w), w.Variable(), trigger)
  {
    var keeps := KeptOrSince(c, trigger, w);
    forall d, k: nat | k < |targets| && keeps(d) ensures keeps(ReloadHandler(ctx, trigger)(d, targets[k], k).cluster) {
      ReloadOneValue(ctx, d, targets[k], trigger, k, w);
    }
    LoopKeeps(ReloadHandler(ctx, trigger), c, targets, |targets|, keeps);
  }

  /** A reload by the env-vars strategy delivers the hash. */
  lemma TriggeredDelivers(ctx: Context, c: Cluster, target: Target, trigger: Trigger, n: nat, t: nat, w: Watch)
    requires Triggered(ctx, c, target, trigger, n, t).err == None
    requires RolloutOf(target) != ROLLOUT_RESTART && StrategyOf(target) == RELOAD_ENV_VARS
    requires trigger.Changed? && w == Watch(target.key, trigger.kind, ObjectKey(trigger.namespace, trigger.name))
    ensures Value(Triggered(ctx, c, target, trigger, n, t).cluster, w) == Some(trigger.hash)
  {
    var done := RolledOut(ctx, c, target.key, trigger, RELOAD_ENV_VARS, n, ctx.Now(t));
    assert done.err == None;
    var i := ReadWorkload(c, target.key, ctx.Fault(ReadReloaded(n))).value;
    var template := c.workloads[i].template;
    PutThenLookup(FirstEnv(template), w.Variable(), trigger.hash, w.Variable());
    PutWorkloadValue(c, i, Apply(template, ReloadEnv(trigger.kind, trigger.name, trigger.hash)).value, w);
    StampedValue(ctx, done.cluster, target.key, n, ctx.Now(t + 1), w);
  }

  ghost function Delivered(w: Watch, hash: string): Cluster -> bool
  {
    (d: Cluster) => Value(d, w) == Some(hash)
  }

  /** After a pass every workload reported as reloaded by that strategy carries the hash, whatever happened to the
      targets after it. */
  lemma ReloadedCarriesHash(ctx: Context, c: Cluster, targets: seq<Target>, trigger: Trigger, i: nat)
    requires i < |targets| && trigger.Changed?
    requires RolloutOf(targets[i]) != ROLLOUT_RESTART && StrategyOf(targets[i]) == RELOAD_ENV_VARS
    requires Executed(ctx, c, targets, trigger).outcomes[i].Reloaded?
    ensures Value(Executed(ctx, c, targets, trigger).cluster,
                  Watch(targets[i].key, trigger.kind, ObjectKey(trigger.namespace, trigger.name))) == Some(trigger.hash)
  {
    var w := Watch(targets[i].key, trigger.kind, ObjectKey(trigger.namespace, trigger.name));
    var handle, keeps := ReloadHandler(ctx, trigger), Delivered(w, trigger.hash);
    LoopOutcome(handle, c, targets, |targets|, i);
    var before := HandledUpTo(handle, c, targets, i).cluster;
    ReloadOneCases(ctx, before, targets[i], trigger, i);
    TriggeredDelivers(ctx, before, Refreshed(ctx, before, targets[i], i), trigger, i, READINGS * i + 1, w);
    assert keeps(HandledUpTo(handle, c, targets, i + 1).cluster);
    forall d, k: nat | k < |targets| && keeps(d) ensures keeps(handle(d, targets[k], k).cluster) {
      ReloadOneValue(ctx, d, targets[k], trigger, k, w);
    }
    LoopKeepsFrom(handle, c, targets, i + 1, |targets|, keeps);
  }

  /* ---- One reconcile ---- */

  lemma ResourcePassValue(ctx: Context, o: Options, c: Cluster, i: nat, w: Watch)
    requires i < |c.resources| && IsResourceKind(c.resources[i].kind)
    ensures var r := c.resources[i];
            var now := Value(ResourcePass(ctx, o, c, r).cluster, w);
            now == Value(c, w) ||
            (GetEnvVarName(r.kind, r.key.name) == w.Variable() && now == Some(ResourceHash(ctx.platform, r)))
  {
    var r := c.resources[i];
    var s, hash := SubjectOf(r), ResourceHash(ctx.platform, r);
    match Discovered(ctx, o, c, s)
    case Err(_) =>
    case Ok(found) =>
      var trigger := Changed(s.kind, s.name, s.namespace, hash);
      ExecutedValue(ctx, c, Filtered(ctx, c, found.targets, s), trigger, w);
      assert HashPersisted(ctx, c, r, hash).cluster.workloads == c.workloads;
      var d := Reloading(ctx, c, found, s, trigger).cluster;
      assert HashPersisted(ctx, d, r, hash).cluster.workloads == d.workloads;
  }

  lemma DeletePassValue(ctx: Context, o: Options, c: Cluster, s: Subject, w: Watch)
    requires GetEnvVarName(s.kind, s.name) != w.Variable()
    ensures Value(DeletePass(ctx, o, c, s).cluster, w) == Value(c, w)
  {
    match Discovered(ctx, o, c, s)
    case Err(_) =>
    case Ok(found) => ExecutedValue(ctx, c, Filtered(ctx, c, found.targets, s), Deleted(s.kind, s.name), w);
  }

  /** No target that the pass for this resource will handle is the workload. */
  ghost predicate TargetsSpare(ctx: Context, o: Options, c: Cluster, s: Subject, key: WorkloadKey)
  {
    match Discovered(ctx, o, c, s)
    case Err(_) => true
    case Ok(found) => forall target :: target in Filtered(ctx, c, found.targets, s) ==> target.key != key
  }

  /** The request leads to the watched resource itself, to one with another variable, or to one whose pass does not
      handle the workload. */
  ghost predicate Harmless(ctx: Context, probes: (Context, Context), o: Options, c: Cluster, request: ObjectKey,
                           w: Watch)
  {
    match Dispatch(ctx, probes, o, c, request)
    case Existing(j) =>
      j == FindResource(c, w.kind, w.key) ||
      GetEnvVarName(c.resources[j].kind, c.resources[j].key.name) != w.Variable() ||
      TargetsSpare(ctx, o, c, SubjectOf(c.resources[j]), w.workload)
    case Gone(s) => GetEnvVarName(s.kind, s.name) != w.Variable() || TargetsSpare(ctx, o, c, s, w.workload)
    case _ => true
  }

  /** A request for another key is about resources whose variable is not the watched one. */
  ghost predicate OwnVariable(request: ObjectKey, w: Watch)
  {
    request == w.key ||
    (GetEnvVarName(KIND_SECRET, request.name) != w.Variable() &&
     GetEnvVarName(KIND_CONFIGMAP, request.name) != w.Variable())
  }

  lemma KindsDiffer(name: string, name': string)
    ensures GetEnvVarName(KIND_SECRET, name) != GetEnvVarName(KIND_CONFIGMAP, name')
  {
    UpperKinds();
    var s, s' := GetEnvVarName(KIND_SECRET, name), GetEnvVarName(KIND_CONFIGMAP, name');
    assert s[|s| - 1] == 'T' && s'[|s'| - 1] == 'P';
  }

  lemma ReconciledKeepsData(ctx: Context, probes: (Context, Context), o: Options, c: Cluster, request: ObjectKey,
                            w: Watch)
    requires Exists(c, w)
    ensures var c' := Reconciled(ctx, probes, o, c, request).cluster;
            Exists(c', w) && DataHash(ctx.platform, c', w) == DataHash(ctx.platform, c, w)
  {
    var c' := Reconciled(ctx, probes, o, c, request).cluster;
    ReconciledIsSame(ctx, probes, o, c, request);
    SamePositions(c, c', w.key);
    var i := FindResource(c, w.kind, w.key);
    assert SameResource(c.resources[i], c'.resources[i]);
    HashDependsOnData(ctx.platform, c.resources[i], c'.resources[i]);
  }

  /** What a request leads to is about its own key. */
  lemma DispatchIsAboutKey(ctx: Context, probes: (Context, Context), o: Options, c: Cluster, request: ObjectKey)
    ensures var d := Dispatch(ctx, probes, o, c, request);
            && (d.Existing? ==> c.resources[d.i].key == request && IsResourceKind(c.resources[d.i].kind) &&
                                d.i == FindResource(c, c.resources[d.i].kind, request))
            && (d.Gone? ==> d.subject.name == request.name && IsResourceKind(d.subject.kind) &&
                            FindResource(c, KIND_SECRET, request) == |c.resources| &&
                            FindResource(c, KIND_CONFIGMAP, request) == |c.resources|)
  {
  }

  /** The variable of a request's resource is the watched one only if the resource is. */
  lemma OtherVariable(request: ObjectKey, kind: string, w: Watch)
    requires IsResourceKind(w.kind) && IsResourceKind(kind) && OwnVariable(request, w)
    requires GetEnvVarName(kind, request.name) == w.Variable()
    ensures request == w.key && kind == w.kind
  {
    KindsDiffer(request.name, w.key.name);
    KindsDiffer(w.key.name, request.name);
  }

  /** So requests with variables of their own are harmless, whatever they lead to. */
  lemma OwnIsHarmless(ctx: Context, probes: (Context, Context), o: Options, c: Cluster, request: ObjectKey, w: Watch)
    requires Exists(c, w) && OwnVariable(request, w)
    ensures Harmless(ctx, probes, o, c, request, w)
  {
    DispatchIsAboutKey(ctx, probes, o, c, request);
    match Dispatch(ctx, probes, o, c, request)
    case Existing(j) =>
      if GetEnvVarName(c.resources[j].kind, request.name) == w.Variable() {
        OtherVariable(request, c.resources[j].kind, w);
      }
    case Gone(s) =>
      if GetEnvVarName(s.kind, request.name) == w.Variable() {
        OtherVariable(request, s.kind, w);
        assert false;
      }
    case _ =>
  }

  /* ---- Passes that do not handle the workload ---- */

  lemma TriggeredElsewhere(ctx: Context, c: Cluster, target: Target, trigger: Trigger, n: nat, t: nat, key: WorkloadKey)
    requires target.key != key
    ensures TemplateOf(Triggered(ctx, c, target, trigger, n, t).cluster, key) == TemplateOf(c, key)
  {
    if RolloutOf(target) == ROLLOUT_RESTART {
      assert Restarted(ctx, c, target.key, n).cluster.workloads == c.workloads;
    } else {
      TriggeredCases(ctx, c, target, trigger, n, t);
      var done := RolledOut(ctx, c, target.key, trigger, StrategyOf(target), n, ctx.Now(t));
      RolledOutElsewhere(ctx, c, target.key, trigger, StrategyOf(target), n, ctx.Now(t), key);
      StampedTemplate(ctx, done.cluster, target.key, n, ctx.Now(t + 1), key);
    }
  }

  ghost function TemplateKept(c: Cluster, key: WorkloadKey): Cluster -> bool
  {
    (d: Cluster) => TemplateOf(d, key) == TemplateOf(c, key)
  }

  lemma ReloadOneElsewhere(ctx: Context, c: Cluster, target: Target, trigger: Trigger, n: nat, key: WorkloadKey)
    requires target.key != key
    ensures TemplateOf(ReloadOne(ctx, c, target, trigger, n).cluster, key) == TemplateOf(c, key)
  {
    ReloadOneCases(ctx, c, target, trigger, n);
    TriggeredElsewhere(ctx, c, Refreshed(ctx, c, target, n), trigger, n, READINGS * n + 1, key);
  }

  lemma ExecutedElsewhere(ctx: Context, c: Cluster, targets: seq<Target>, trigger: Trigger, key: WorkloadKey)
    requires forall target :: target in targets ==> target.key != key
    ensures TemplateOf(Executed(ctx, c, targets, trigger).cluster, key) == TemplateOf(c, key)
  {
    var keeps := TemplateKept(c, key);
    forall d, k: nat | k < |targets| && keeps(d) ensures keeps(ReloadHandler(ctx, trigger)(d, targets[k], k).cluster) {
      ReloadOneElsewhere(ctx, d, targets[k], trigger, k, key);
    }
    LoopKeeps(ReloadHandler(ctx, trigger), c, targets, |targets|, keeps);
  }

  lemma ResourcePassElsewhere(ctx: Context, o: Options, c: Cluster, r: Resource, key: WorkloadKey)
    requires IsResourceKind(r.kind) && TargetsSpare(ctx, o, c, SubjectOf(r), key)
    ensures TemplateOf(ResourcePass(ctx, o, c, r).cluster, key) == TemplateOf(c, key)
  {
    var s, hash := SubjectOf(r), ResourceHash(ctx.platform, r);
    match Discovered(ctx, o, c, s)
    case Err(_) =>
    case Ok(found) =>
      var trigger := Changed(s.kind, s.name, s.namespace, hash);
      ExecutedElsewhere(ctx, c, Filtered(ctx, c, found.targets, s), trigger, key);
      var d := Reloading(ctx, c, found, s, trigger).cluster;
      assert HashPersisted(ctx, c, r, hash).cluster.workloads == c.workloads;
      assert HashPersisted(ctx, d, r, hash).cluster.workloads == d.workloads;
  }

  lemma DeletePassElsewhere(ctx: Context, o: Options, c: Cluster, s: Subject, key: WorkloadKey)
    requires TargetsSpare(ctx, o, c, s, key)
    ensures TemplateOf(DeletePass(ctx, o, c, s).cluster, key) == TemplateOf(c, key)
  {
    match Discovered(ctx, o, c, s)
    case Err(_) =>
    case Ok(found) => ExecutedElsewhere(ctx, c, Filtered(ctx, c, found.targets, s), Deleted(s.kind, s.name), key);
  }

  /* ---- Any reconcile ---- */

  lemma ExistingSetsHash(ctx: Context, o: Options, c: Cluster, j: nat, w: Watch)
    requires Exists(c, w) && j < |c.resources| && IsResourceKind(c.resources[j].kind)
    requires j == FindResource(c, w.kind, w.key) ||
             GetEnvVarName(c.resources[j].kind, c.resources[j].key.name) != w.Variable() ||
             TargetsSpare(ctx, o, c, SubjectOf(c.resources[j]), w.workload)
    ensures var now := Value(ResourcePass(ctx, o, c, c.resources[j]).cluster, w);
            now == Value(c, w) || now == Some(DataHash(ctx.platform, c, w))
  {
    if TargetsSpare(ctx, o, c, SubjectOf(c.resources[j]), w.workload) {
      ResourcePassElsewhere(ctx, o, c, c.resources[j], w.workload);
    } else {
      ResourcePassValue(ctx, o, c, j, w);
    }
  }

  lemma GoneKeepsValue(ctx: Context, o: Options, c: Cluster, s: Subject, w: Watch)
    requires GetEnvVarName(s.kind, s.name) != w.Variable() || TargetsSpare(ctx, o, c, s, w.workload)
    ensures Value(DeletePass(ctx, o, c, s).cluster, w) == Value(c, w)
  {
    if TargetsSpare(ctx, o, c, s, w.workload) {
      DeletePassElsewhere(ctx, o, c, s, w.workload);
    } else {
      DeletePassValue(ctx, o, c, s, w);
    }
  }

  lemma ReconciledSetsHash(ctx: Context, probes: (Context, Context), o: Options, c: Cluster, request: ObjectKey,
                           w: Watch)
    requires Exists(c, w) && Harmless(ctx, probes, o, c, request, w)
    ensures var c' := Reconciled(ctx, probes, o, c, request).cluster;
            Value(c', w) == Value(c, w) || Value(c', w) == Some(DataHash(ctx.platform, c, w))
  {
    match Dispatch(ctx, probes, o, c, request)
    case Nothing(_) =>
    case Config(i) => assert ConfigPass(ctx, c, c.configs[i]).cluster.workloads == c.workloads;
    case Existing(j) => ExistingSetsHash(ctx, o, c, j, w);
    case Gone(s) => GoneKeepsValue(ctx, o, c, s, w);
  }

  /** A reconcile leaves the variable alone or sets it to the hash of the present data; it does not change data. */
  lemma ReconciledValue(ctx: Context, probes: (Context, Context), o: Options, c: Cluster, request: ObjectKey, w: Watch)
    requires Exists(c, w) && Harmless(ctx, probes, o, c, request, w)
    ensures var c' := Reconciled(ctx, probes, o, c, request).cluster;
            && Exists(c', w)
            && DataHash(ctx.platform, c', w) == DataHash(ctx.platform, c, w)
            && (Value(c', w) == Value(c, w) || Value(c', w) == Some(DataHash(ctx.platform, c, w)))
  {
    ReconciledKeepsData(ctx, probes, o, c, request, w);
    ReconciledSetsHash(ctx, probes, o, c, request, w);
  }

  /* ---- Runs ---- */

  /** Users may edit anything but the variable, and may change the data as often as they like; no reconcile is one of
      another resource that shares the variable and handles the workload. */
  ghost predicate Allowed(x: Platform, o: Options, c: Cluster, step: Step, w: Watch)
  {
    match step
    case Acting(Reconciling(ctx, probes, request)) => ctx.platform == x && Harmless(ctx, probes, o, c, request, w)
    case Acting(UpdatingStatus(_, _, _)) => true
    case Editing(cluster) => Exists(cluster, w) && Value(cluster, w) == Value(c, w)
  }

  ghost predicate AllAllowed(x: Platform, o: Options, c: Cluster, steps: seq<Step>, w: Watch)
  {
    steps == [] ||
    var n := |steps| - 1;
    AllAllowed(x, o, c, steps[..n], w) && Allowed(x, o, After(o, c, steps[..n]), steps[n], w)
  }

  /** How often the variable changes. */
  ghost function Changes(o: Options, c: Cluster, steps: seq<Step>, w: Watch): nat
  {
    if steps == [] then 0
    else
      var n := |steps| - 1;
      Changes(o, c, steps[..n], w) + (if Value(After(o, c, steps), w) != Value(After(o, c, steps[..n]), w) then 1
                                      else 0)
  }

  /** How often an edit changes the data. */
  ghost function DataWrites(x: Platform, o: Options, c: Cluster, steps: seq<Step>, w: Watch): nat
  {
    if steps == [] then 0
    else
      var n := |steps| - 1;
      var was, now := After(o, c, steps[..n]), After(o, c, steps);
      DataWrites(x, o, c, steps[..n], w) +
      (if steps[n].Editing? && Exists(was, w) && Exists(now, w) &&
       DataOf(The(now, w.kind, w.key)) != DataOf(The(was, w.kind, w.key)) then 1 else 0)
  }

  ghost function Behind(x: Platform, c: Cluster, w: Watch): nat
    requires Exists(c, w)
  {
    if Value(c, w) == Some(DataHash(x, c, w)) then 0 else 1
  }

  lemma StatusUpdateValue(o: Options, c: Cluster, a: Action, w: Watch)
    requires Exists(c, w) && a.UpdatingStatus?
    ensures Act(o, c, a).workloads == c.workloads && Act(o, c, a).resources == c.resources
  {
  }

  lemma StepChanges(x: Platform, o: Options, c: Cluster, step: Step, w: Watch)
    requires Exists(c, w) && Allowed(x, o, c, step, w)
    ensures var c' := Happens(o, c, step);
            && Exists(c', w)
            && (if Value(c', w) != Value(c, w) then 1 else 0) + Behind(x, c', w) <=
               (if step.Editing? && DataOf(The(c', w.kind, w.key)) != DataOf(The(c, w.kind, w.key)) then 1 else 0) +
               Behind(x, c, w)
  {
    match step
    case Acting(Reconciling(ctx, probes, request)) => ReconciledValue(ctx, probes, o, c, request, w);
    case Acting(UpdatingStatus(_, _, _)) =>
      StatusUpdateValue(o, c, step.action, w);
    case Editing(cluster) =>
      if DataOf(The(cluster, w.kind, w.key)) == DataOf(The(c, w.kind, w.key)) {
        HashDependsOnData(x, The(cluster, w.kind, w.key), The(c, w.kind, w.key));
      }
  }

  lemma {:induction false} RunChanges(x: Platform, o: Options, c: Cluster, steps: seq<Step>, w: Watch)
    requires Exists(c, w) && AllAllowed(x, o, c, steps, w)
    ensures Exists(After(o, c, steps), w)
    ensures Changes(o, c, steps, w) + Behind(x, After(o, c, steps), w) <= DataWrites(x, o, c, steps, w) +
            Behind(x, c, w)
  {
    if steps == [] {
    } else {
      var n := |steps| - 1;
      RunChanges(x, o, c, steps[..n], w);
      StepChanges(x, o, After(o, c, steps[..n]), steps[n], w);
    }
  }

  /** Over any run of reconciles, whatever fails in them and however often they are retried, of status updates and
      of edits that leave the variable alone, the variable changes at most once plus once for each edit that changes
      the data; not at all beyond those if it held the present hash at the start. */
  lemma ValueFollowsData(x: Platform, o: Options, c: Cluster, steps: seq<Step>, w: Watch)
    requires Exists(c, w) && AllAllowed(x, o, c, steps, w)
    ensures Changes(o, c, steps, w) <= DataWrites(x, o, c, steps, w) + 1
    ensures Value(c, w) == Some(DataHash(x, c, w)) ==> Changes(o, c, steps, w) <= DataWrites(x, o, c, steps, w)
  {
    RunChanges(x, o, c, steps, w);
  }

  /** Among dot-free names every resource with another name has its own variable. */
  lemma NamesGiveOwnVariables(request: ObjectKey, w: Watch)
    requires IsResourceKind(w.kind) && Subdomain(w.key.name) && Subdomain(request.name)
    requires '.' !in w.key.name && '.' !in request.name
    requires request.name != w.key.name || request == w.key
    ensures OwnVariable(request, w)
  {
    if request != w.key {
      if GetEnvVarName(KIND_SECRET, request.name) == w.Variable() {
        EnvVarNamesAreDistinct(KIND_SECRET, request.name, w.kind, w.key.name);
      }
      if GetEnvVarName(KIND_CONFIGMAP, request.name) == w.Variable() {
        EnvVarNamesAreDistinct(KIND_CONFIGMAP, request.name, w.kind, w.key.name);
      }
    }
  }

  /* ---- The template changes only with the variable ---- */

  lemma PutSame(env: seq<EnvVar>, name: string, value: string)
    ensures PutEnv(env, name, value) == env <==> LookupEnv(env, name) == Some(value)
  {
    var i := EnvPosition(env, name);
    if i < |env| {
      assert PutEnv(env, name, value)[i].value == value;
    }
  }

  /** Writing the value that is there is the one case in which the env-vars strategy leaves a template alone. */
  lemma EnvRewriteSame(t: PodTemplate, kind: string, name: string, hash: string)
    requires t.spec.containers != []
    ensures Apply(t, ReloadEnv(kind, name, hash)) == Ok(t) <==> ValueIn(t, GetEnvVarName(kind, name)) == Some(hash)
  {
    PutSame(FirstEnv(t), GetEnvVarName(kind, name), hash);
    var t' := Apply(t, ReloadEnv(kind, name, hash)).value;
    assert FirstEnv(t') == PutEnv(FirstEnv(t), GetEnvVarName(kind, name), hash);
    if FirstEnv(t') == FirstEnv(t) {
      assert t'.spec.containers == t.spec.containers;
    }
  }

  /** The template is as it was, or the variable moved to the hash and was not there before. */
  ghost predicate Moved(was: Option<PodTemplate>, now: Option<PodTemplate>, name: string, hash: string)
  {
    now == was ||
    (was.Some? && now.Some? && ValueIn(was.value, name) != Some(hash) && ValueIn(now.value, name) == Some(hash))
  }

  lemma RewriteMoves(t: PodTemplate, kind: string, name: string, hash: string)
    requires Apply(t, ReloadEnv(kind, name, hash)).Ok?
    ensures Moved(Some(t), Some(Apply(t, ReloadEnv(kind, name, hash)).value), GetEnvVarName(kind, name), hash)
  {
    EnvRewriteSame(t, kind, name, hash);
    PutThenLookup(FirstEnv(t), GetEnvVarName(kind, name), hash, GetEnvVarName(kind, name));
  }

  lemma PutWorkloadTemplate(c: Cluster, i: nat, w: Workload, key: WorkloadKey)
    requires i < |c.workloads| && w.key == c.workloads[i].key && i == FindWorkload(c, w.key)
    ensures TemplateOf(PutWorkload(c, i, w), key) == if w.key == key then Some(w.template) else TemplateOf(c, key)
  {
    var c' := PutWorkload(c, i, w);
    SameFirst(c.workloads, c'.workloads, (x: Workload) => x.key == key);
  }

  lemma StampedTemplate(ctx: Context, c: Cluster, target: WorkloadKey, n: nat, now: int, key: WorkloadKey)
    ensures TemplateOf(Stamped(ctx, c, target, n, now), key) == TemplateOf(c, key)
  {
    var c' := Stamped(ctx, c, target, n, now);
    SameFirst(c.workloads, c'.workloads, (x: Workload) => x.key == key);
  }

  /** Rolling out one workload leaves the templates of the others alone. */
  lemma RolledOutElsewhere(ctx: Context, c: Cluster, target: WorkloadKey, trigger: Trigger, strategy: string, n: nat,
                           now: int, key: WorkloadKey)
    requires target != key
    ensures TemplateOf(RolledOut(ctx, c, target, trigger, strategy, n, now).cluster, key) == TemplateOf(c, key)
  {
    var c' := RolledOut(ctx, c, target, trigger, strategy, n, now).cluster;
    SameFirst(c.workloads, c'.workloads, (x: Workload) => x.key == key);
  }

  /** On the rollout path the env-vars strategy changes the template if and only if it changes the value. */
  lemma RolledOutMoves(ctx: Context, c: Cluster, key: WorkloadKey, trigger: Trigger, n: nat, now: int)
    requires trigger.Changed?
    ensures Moved(TemplateOf(c, key), TemplateOf(RolledOut(ctx, c, key, trigger, RELOAD_ENV_VARS, n, now).cluster, key),
                  GetEnvVarName(trigger.kind, trigger.name), trigger.hash)
  {
    var done := RolledOut(ctx, c, key, trigger, RELOAD_ENV_VARS, n, now);
    if done.err == None {
      var i := ReadWorkload(c, key, ctx.Fault(ReadReloaded(n))).value;
      var w := c.workloads[i];
      RewriteMoves(w.template, trigger.kind, trigger.name, trigger.hash);
      var t := Apply(w.template, ReloadEnv(trigger.kind, trigger.name, trigger.hash)).value;
      PutWorkloadTemplate(c, i, w.(template := t), key);
    }
  }

  /** The target is rolled out by environment variables if it is the workload. */
  ghost predicate EnvVarsFor(target: Target, key: WorkloadKey)
  {
    target.key == key ==> RolloutOf(target) != ROLLOUT_RESTART && StrategyOf(target) == RELOAD_ENV_VARS
  }

  lemma TriggeredMoves(ctx: Context, c: Cluster, target: Target, trigger: Trigger, n: nat, t: nat, key: WorkloadKey)
    requires trigger.Changed? && EnvVarsFor(target, key)
    ensures Moved(TemplateOf(c, key), TemplateOf(Triggered(ctx, c, target, trigger, n, t).cluster, key),
                  GetEnvVarName(trigger.kind, trigger.name), trigger.hash)
  {
    if RolloutOf(target) == ROLLOUT_RESTART {
      assert Restarted(ctx, c, target.key, n).cluster.workloads == c.workloads;
    } else {
      TriggeredCases(ctx, c, target, trigger, n, t);
      var done := RolledOut(ctx, c, target.key, trigger, StrategyOf(target), n, ctx.Now(t));
      StampedTemplate(ctx, done.cluster, target.key, n, ctx.Now(t + 1), key);
      if target.key == key {
        RolledOutMoves(ctx, c, key, trigger, n, ctx.Now(t));
      } else {
        RolledOutElsewhere(ctx, c, target.key, trigger, StrategyOf(target), n, ctx.Now(t), key);
      }
    }
  }

  lemma ReloadOneMoves(ctx: Context, c: Cluster, target: Target, trigger: Trigger, n: nat, key: WorkloadKey)
    requires trigger.Changed? && EnvVarsFor(target, key)
    ensures Moved(TemplateOf(c, key), TemplateOf(ReloadOne(ctx, c, target, trigger, n).cluster, key),
                  GetEnvVarName(trigger.kind, trigger.name), trigger.hash)
  {
    ReloadOneCases(ctx, c, target, trigger, n);
    TriggeredMoves(ctx, c, Refreshed(ctx, c, target, n), trigger, n, READINGS * n + 1, key);
  }

  ghost function MovedSince(c: Cluster, trigger: Trigger, key: WorkloadKey): Cluster -> bool
    requires trigger.Changed?
  {
    (d: Cluster) => Moved(TemplateOf(c, key), TemplateOf(d, key), GetEnvVarName(trigger.kind, trigger.name),
                          trigger.hash)
  }

  lemma ExecutedMoves(ctx: Context, c: Cluster, targets: seq<Target>, trigger: Trigger, key: WorkloadKey)
    requires trigger.Changed? && forall target :: target in targets ==> EnvVarsFor(target, key)
    ensures Moved(TemplateOf(c, key), TemplateOf(Executed(ctx, c, targets, trigger).cluster, key),
                  GetEnvVarName(trigger.kind, trigger.name), trigger.hash)
  {
    var keeps := MovedSince(c, trigger, key);
    forall d, k: nat | k < |targets| && keeps(d) ensures keeps(ReloadHandler(ctx, trigger)(d, targets[k], k).cluster) {
      ReloadOneMoves(ctx, d, targets[k], trigger, k, key);
    }
    LoopKeeps(ReloadHandler(ctx, trigger), c, targets, |targets|, keeps);
  }

  /** Every target that the pass will handle for the workload is rolled out by environment variables. */
  ghost predicate PassUsesEnvVars(ctx: Context, o: Options, c: Cluster, s: Subject, key: WorkloadKey)
  {
    match Discovered(ctx, o, c, s)
    case Err(_) => true
    case Ok(found) => forall target :: target in Filtered(ctx, c, found.targets, s) ==> EnvVarsFor(target, key)
  }

  lemma ResourcePassMoves(ctx: Context, o: Options, c: Cluster, r: Resource, key: WorkloadKey)
    requires IsResourceKind(r.kind) && PassUsesEnvVars(ctx, o, c, SubjectOf(r), key)
    ensures Moved(TemplateOf(c, key), TemplateOf(ResourcePass(ctx, o, c, r).cluster, key),
                  GetEnvVarName(r.kind, r.key.name), ResourceHash(ctx.platform, r))
  {
    var s, hash := SubjectOf(r), ResourceHash(ctx.platform, r);
    match Discovered(ctx, o, c, s)
    case Err(_) =>
    case Ok(found) =>
      var trigger := Changed(s.kind, s.name, s.namespace, hash);
      ExecutedMoves(ctx, c, Filtered(ctx, c, found.targets, s), trigger, key);
      var d := Reloading(ctx, c, found, s, trigger).cluster;
      assert HashPersisted(ctx, c, r, hash).cluster.workloads == c.workloads;
      assert HashPersisted(ctx, d, r, hash).cluster.workloads == d.workloads;
  }

  /* ---- Rollouts over a run ---- */

  /** The step reconciles the watched resource. */
  ghost predicate Reconciles(o: Options, c: Cluster, step: Step, w: Watch)
  {
    step.Acting? && step.action.Reconciling? &&
    Dispatch(step.action.ctx, step.action.probes, o, c, step.action.request) == Existing(FindResource(c, w.kind, w.key))
  }

  ghost predicate StepUsesEnvVars(o: Options, c: Cluster, step: Step, w: Watch)
  {
    Reconciles(o, c, step, w) ==>
      PassUsesEnvVars(step.action.ctx, o, c, Subject(w.kind, w.key.name, w.key.namespace), w.workload)
  }

  ghost predicate AllUseEnvVars(o: Options, c: Cluster, steps: seq<Step>, w: Watch)
  {
    steps == [] ||
    var n := |steps| - 1;
    AllUseEnvVars(o, c, steps[..n], w) && StepUsesEnvVars(o, After(o, c, steps[..n]), steps[n], w)
  }

  /** How often a reconcile of the watched resource changes the workload's template. */
  ghost function Rollouts(o: Options, c: Cluster, steps: seq<Step>, w: Watch): nat
  {
    if steps == [] then 0
    else
      var n := |steps| - 1;
      var was, now := After(o, c, steps[..n]), After(o, c, steps);
      Rollouts(o, c, steps[..n], w) +
      (if Reconciles(o, was, steps[n], w) && TemplateOf(now, w.workload) != TemplateOf(was, w.workload) then 1 else 0)
  }

  /** A reconcile of the resource changes the template if and only if it changes the variable. */
  lemma RolloutMovesValue(o: Options, c: Cluster, step: Step, w: Watch)
    requires Exists(c, w) && StepUsesEnvVars(o, c, step, w)
    ensures Reconciles(o, c, step, w) ==>
      (TemplateOf(Happens(o, c, step), w.workload) != TemplateOf(c, w.workload) <==>
       Value(Happens(o, c, step), w) != Value(c, w))
  {
    if !Reconciles(o, c, step, w) {
      return;
    }
    ResourcePassMoves(step.action.ctx, o, c, The(c, w.kind, w.key), w.workload);
  }

  lemma {:induction false} RolloutsAreChanges(x: Platform, o: Options, c: Cluster, steps: seq<Step>, w: Watch)
    requires Exists(c, w) && AllAllowed(x, o, c, steps, w) && AllUseEnvVars(o, c, steps, w)
    ensures Exists(After(o, c, steps), w)
    ensures Rollouts(o, c, steps, w) <= Changes(o, c, steps, w)
  {
    RunChanges(x, o, c, steps, w);
    if steps == [] {
    } else {
      var n := |steps| - 1;
      RolloutsAreChanges(x, o, c, steps[..n], w);
      RolloutMovesValue(o, After(o, c, steps[..n]), steps[n], w);
    }
  }

  /** Over any run of reconciles, whatever fails in them and however often they are retried, of status updates and of
      edits that leave the variable alone, in which the workload is rolled out by environment variables, reconciling
      the resource changes the workload's template at most once plus once for each edit that changes the data; not at
      all beyond those if the template held the present hash at the start. */
  lemma RetriesDoNotRollOut(x: Platform, o: Options, c: Cluster, steps: seq<Step>, w: Watch)
    requires Exists(c, w) && AllAllowed(x, o, c, steps, w) && AllUseEnvVars(o, c, steps, w)
    ensures Rollouts(o, c, steps, w) <= DataWrites(x, o, c, steps, w) + 1
    ensures Value(c, w) == Some(DataHash(x, c, w)) ==> Rollouts(o, c, steps, w) <= DataWrites(x, o, c, steps, w)
  {
    RolloutsAreChanges(x, o, c, steps, w);
    ValueFollowsData(x, o, c, steps, w);
  }

  /* ---- Which reloads tolerate a repetition ---- */

  /** Only the env-vars strategy for a change writes the same again later; the others write the time. */
  predicate Timeless(trigger: Trigger, strategy: string)
  {
    strategy == RELOAD_ENV_VARS && trigger.Changed?
  }

  lemma DeletedMarks(a: string, b: string)
    ensures "deleted-" + a == "deleted-" + b <==> a == b
  {
    if "deleted-" + a == "deleted-" + b {
      assert a == ("deleted-" + a)[8..] == ("deleted-" + b)[8..] == b;
    }
  }

  lemma DeleteRewriteSame(t: PodTemplate, kind: string, name: string, timestamp: string)
    requires t.spec.containers != [] && ANNOTATION_LAST_RELOADED_FROM !in t.annotations
    ensures Apply(t, DeleteEnv(kind, name, timestamp)) == Ok(t) <==>
            ValueIn(t, GetEnvVarName(kind, name)) == Some("deleted-" + timestamp)
  {
    EnvRewriteSame(t, kind, name, "deleted-" + timestamp);
    assert t.annotations - {ANNOTATION_LAST_RELOADED_FROM} == t.annotations;
    var t' := Apply(t, DeleteEnv(kind, name, timestamp)).value;
    assert t' == Apply(t, ReloadEnv(kind, name, "deleted-" + timestamp)).value.(annotations := t.annotations);
  }

  /** Rewriting a template a second time leaves it alone exactly when the first rewrite was timeless or both fall
      into the same second. */
  lemma RetryKeepsTemplate(ctx: Context, t: PodTemplate, trigger: Trigger, strategy: string, now: int, later: int)
    requires RewriteFor(ctx, trigger, strategy, now).Ok?
    requires Apply(t, RewriteFor(ctx, trigger, strategy, now).value).Ok?
    ensures var once := Apply(t, RewriteFor(ctx, trigger, strategy, now).value).value;
            RewriteFor(ctx, trigger, strategy, later).Ok? &&
            (Apply(once, RewriteFor(ctx, trigger, strategy, later).value) == Ok(once) <==>
             Timeless(trigger, strategy) || ctx.platform.formatTime(now) == ctx.platform.formatTime(later))
  {
    var once := Apply(t, RewriteFor(ctx, trigger, strategy, now).value).value;
    RewriteLeaves(ctx, t, trigger, strategy, now);
    if strategy == RELOAD_ENV_VARS {
      match trigger
      case Changed(kind, name, _, hash) => EnvRewriteSame(once, kind, name, hash);
      case Deleted(kind, name) =>
        DeleteRewriteSame(once, kind, name, ctx.platform.formatTime(later));
        DeletedMarks(ctx.platform.formatTime(now), ctx.platform.formatTime(later));
    } else {
      var twice := Apply(once, RewriteFor(ctx, trigger, strategy, later).value).value;
      RewriteLeaves(ctx, once, trigger, strategy, later);
      if ctx.platform.formatTime(now) == ctx.platform.formatTime(later) {
        assert twice.annotations == once.annotations;
      }
    }
  }

  /* ---- Repeating a whole reload ---- */

  /** Templates and pods are as they were. */
  ghost predicate Undisturbed(c: Cluster, d: Cluster)
  {
    && d.pods == c.pods
    && |d.workloads| == |c.workloads|
    && forall i :: 0 <= i < |c.workloads| ==> d.workloads[i].template == c.workloads[i].template
  }

  /** The workload has no pods, by its own selector. */
  ghost predicate NoPods(c: Cluster, key: WorkloadKey)
  {
    var i := FindWorkload(c, key);
    i < |c.workloads| && c.workloads[i].matchLabels.Some? ==>
      forall p :: p in c.pods ==> !Selects(p, c.pods[p], key.namespace, c.workloads[i].matchLabels.value)
  }

  lemma PutTemplateDisturbs(c: Cluster, i: nat, w: Workload)
    requires i < |c.workloads|
    ensures Undisturbed(c, PutWorkload(c, i, w)) <==> w.template == c.workloads[i].template
  {
    assert PutWorkload(c, i, w).workloads[i] == w;
  }

  lemma StampDisturbsNothing(ctx: Context, c: Cluster, d: Cluster, key: WorkloadKey, n: nat, now: int)
    ensures Undisturbed(c, Stamped(ctx, d, key, n, now)) <==> Undisturbed(c, d)
  {
    var e := Stamped(ctx, d, key, n, now);
    assert |e.workloads| == |d.workloads| && e.pods == d.pods;
    assert forall i :: 0 <= i < |d.workloads| ==> e.workloads[i].template == d.workloads[i].template;
  }

  /** Restarting deletes pods whenever there are any, whatever the trigger. */
  lemma RestartDisturbs(ctx: Context, c: Cluster, key: WorkloadKey, n: nat)
    requires Restarted(ctx, c, key, n).err == None
    ensures Undisturbed(c, Restarted(ctx, c, key, n).cluster) <==> NoPods(c, key)
  {
    var i := ReadWorkload(c, key, ctx.Fault(ReadReloaded(n))).value;
    var matchLabels := c.workloads[i].matchLabels.value;
    var selected := set p | p in c.pods && Selects(p, c.pods[p], key.namespace, matchLabels);
    var deleted := set p | p in selected && ctx.Fault(DeletePod(n, p)).None?;
    assert Restarted(ctx, c, key, n).cluster.pods == c.pods - deleted;
    if p :| p in deleted {
      assert p in c.pods && p !in c.pods - deleted;
    } else {
      assert deleted == {} && selected == {};
      assert c.pods - deleted == c.pods;
      assert forall p :: p in c.pods ==> p !in selected;
    }
  }

  /** A template that was rolled out carries the first rewrite. */
  ghost predicate CarriesRewrite(ctx: Context, c: Cluster, key: WorkloadKey, trigger: Trigger, strategy: string,
                                 now: int)
  {
    var i := FindWorkload(c, key);
    i < |c.workloads| && RewriteFor(ctx, trigger, strategy, now).Ok? &&
    exists t :: Apply(t, RewriteFor(ctx, trigger, strategy, now).value) == Ok(c.workloads[i].template)
  }

  lemma RolledOutCarries(ctx: Context, c: Cluster, key: WorkloadKey, trigger: Trigger, strategy: string, n: nat,
                         now: int)
    requires RolledOut(ctx, c, key, trigger, strategy, n, now).err == None
    ensures CarriesRewrite(ctx, RolledOut(ctx, c, key, trigger, strategy, n, now).cluster, key, trigger, strategy, now)
  {
    var d := RolledOut(ctx, c, key, trigger, strategy, n, now).cluster;
    var i := ReadWorkload(c, key, ctx.Fault(ReadReloaded(n))).value;
    SameFirst(c.workloads, d.workloads, (x: Workload) => x.key == key);
    assert Apply(c.workloads[i].template, RewriteFor(ctx, trigger, strategy, now).value) == Ok(d.workloads[i].template);
  }

  lemma RolloutDisturbs(ctx: Context, c: Cluster, key: WorkloadKey, trigger: Trigger, strategy: string, first: int,
                        n: nat, now: int)
    requires CarriesRewrite(ctx, c, key, trigger, strategy, first)
    requires RolledOut(ctx, c, key, trigger, strategy, n, now).err == None
    ensures Undisturbed(c, RolledOut(ctx, c, key, trigger, strategy, n, now).cluster) <==>
            Timeless(trigger, strategy) || ctx.platform.formatTime(first) == ctx.platform.formatTime(now)
  {
    var i := ReadWorkload(c, key, ctx.Fault(ReadReloaded(n))).value;
    var t :| Apply(t, RewriteFor(ctx, trigger, strategy, first).value) == Ok(c.workloads[i].template);
    RetryKeepsTemplate(ctx, t, trigger, strategy, first, now);
    var t' := Apply(c.workloads[i].template, RewriteFor(ctx, trigger, strategy, now).value).value;
    PutTemplateDisturbs(c, i, c.workloads[i].(template := t'));
  }

  lemma TriggeredCarries(ctx: Context, c: Cluster, target: Target, trigger: Trigger, n: nat, t: nat)
    requires RolloutOf(target) != ROLLOUT_RESTART && Triggered(ctx, c, target, trigger, n, t).err == None
    ensures CarriesRewrite(ctx, Triggered(ctx, c, target, trigger, n, t).cluster, target.key, trigger,
                           StrategyOf(target), ctx.Now(t))
  {
    var done := RolledOut(ctx, c, target.key, trigger, StrategyOf(target), n, ctx.Now(t));
    assert done.err == None;
    RolledOutCarries(ctx, c, target.key, trigger, StrategyOf(target), n, ctx.Now(t));
    var e := Stamped(ctx, done.cluster, target.key, n, ctx.Now(t + 1));
    SameFirst(done.cluster.workloads, e.workloads, (x: Workload) => x.key == target.key);
    assert forall i :: 0 <= i < |e.workloads| ==> e.workloads[i].template == done.cluster.workloads[i].template;
  }

  lemma CarriesElsewhere(ctx: Context, ctx': Context, c: Cluster, c': Cluster, key: WorkloadKey, trigger: Trigger,
                         strategy: string, now: int)
    requires CarriesRewrite(ctx, c, key, trigger, strategy, now) && ctx'.platform == ctx.platform &&
             c'.workloads == c.workloads
    ensures CarriesRewrite(ctx', c', key, trigger, strategy, now)
  {
    assert RewriteFor(ctx', trigger, strategy, now) == RewriteFor(ctx, trigger, strategy, now);
  }

  lemma FailureDisturbsNothing(ctx: Context, c: Cluster, target: Target, trigger: Trigger, n: nat, t: nat)
    requires Triggered(ctx, c, target, trigger, n, t).err.Some?
    ensures Undisturbed(c, Triggered(ctx, c, target, trigger, n, t).cluster)
  {
    if RolloutOf(target) == ROLLOUT_RESTART {
      assert Restarted(ctx, c, target.key, n).cluster.pods == c.pods;
    }
  }

  /** Exactly which reloads can be repeated without effect. Between the attempts the pods may have been recreated, and
      the clock has moved on. A repeated attempt that fails disturbs nothing. One that succeeds leaves all templates and
      pods alone if and only if, on the restart path, the workload has no pods, and, on the rollout path, the strategy
      is env-vars and the resource changed rather than was deleted, or both attempts format to the same time. */
  lemma RepeatExactly(first: Context, second: Context, c: Cluster, d: Cluster, target: Target, trigger: Trigger, n: nat,
                      t: nat, m: nat, u: nat)
    requires first.platform == second.platform
    requires Triggered(first, c, target, trigger, n, t).err == None
    requires d.workloads == Triggered(first, c, target, trigger, n, t).cluster.workloads
    ensures var again := Triggered(second, d, target, trigger, m, u);
            if again.err.Some? then Undisturbed(d, again.cluster)
            else Undisturbed(d, again.cluster) <==>
                 if RolloutOf(target) == ROLLOUT_RESTART then NoPods(d, target.key)
                 else Timeless(trigger, StrategyOf(target)) ||
                      first.platform.formatTime(first.Now(t)) == first.platform.formatTime(second.Now(u))
  {
    var again := Triggered(second, d, target, trigger, m, u);
    if again.err.Some? {
      FailureDisturbsNothing(second, d, target, trigger, m, u);
    } else if RolloutOf(target) == ROLLOUT_RESTART {
      RestartDisturbs(second, d, target.key, m);
    } else {
      var once := Triggered(first, c, target, trigger, n, t).cluster;
      TriggeredCarries(first, c, target, trigger, n, t);
      CarriesElsewhere(first, second, once, d, target.key, trigger, StrategyOf(target), first.Now(t));
      RolloutDisturbs(second, d, target.key, trigger, StrategyOf(target), first.Now(t), m, second.Now(u));
      var done := RolledOut(second, d, target.key, trigger, StrategyOf(target), m, second.Now(u));
      StampDisturbsNothing(second, d, done.cluster, target.key, m, second.Now(u + 1));
    }
  }

  /** A time stamp tells its second, so attempts in different seconds format differently. */
  lemma SecondsFormatApart(x: Platform, a: int, b: int)
    requires x.Lawful() && Truncate(a) != Truncate(b)
    ensures x.formatTime(a) != x.formatTime(b)
  {
  }
}
