/** Once a resource has been reconciled, nothing happens until its data changes. */
module Quiescence {
  import opened Common
  import opened Helpers
  import opened Hash
  import opened Kube
  import opened Api
  import opened Updater
  import opened Finder
  import opened Discovery
  import opened Reload
  import opened Events
  import opened Controller
  import opened Fixpoint

  /* ---- Reloads touch workloads and pods only ---- */

  ghost predicate SameObjects(c: Cluster, d: Cluster)
  {
    d.configs == c.configs && d.resources == c.resources && d.writes >= c.writes
  }

  ghost function SameObjectsAs(c: Cluster): Cluster -> bool
  {
    (d: Cluster) => SameObjects(c, d)
  }

  lemma RestartedKeepsObjects(ctx: Context, c: Cluster, key: WorkloadKey, n: nat)
    ensures SameObjects(c, Restarted(ctx, c, key, n).cluster)
  {
  }

  lemma RolledOutKeepsObjects(ctx: Context, c: Cluster, key: WorkloadKey, trigger: Trigger, strategy: string, n: nat,
                              now: int)
    ensures SameObjects(c, RolledOut(ctx, c, key, trigger, strategy, n, now).cluster)
  {
  }

  lemma StampedKeepsObjects(ctx: Context, c: Cluster, key: WorkloadKey, n: nat, now: int)
    ensures SameObjects(c, Stamped(ctx, c, key, n, now))
  {
  }

  lemma TriggeredKeepsObjects(ctx: Context, c: Cluster, target: Target, trigger: Trigger, n: nat, t: nat)
    ensures SameObjects(c, Triggered(ctx, c, target, trigger, n, t).cluster)
  {
    if RolloutOf(target) == ROLLOUT_RESTART {
      RestartedKeepsObjects(ctx, c, target.key, n);
    } else {
      TriggeredCases(ctx, c, target, trigger, n, t);
      RolledOutKeepsObjects(ctx, c, target.key, trigger, StrategyOf(target), n, ctx.Now(t));
      StampedKeepsObjects(ctx, RolledOut(ctx, c, target.key, trigger, StrategyOf(target), n, ctx.Now(t)).cluster,
                          target.key, n, ctx.Now(t + 1));
    }
  }

  lemma ExecutedKeepsObjects(ctx: Context, c: Cluster, targets: seq<Target>, trigger: Trigger)
    ensures SameObjects(c, Executed(ctx, c, targets, trigger).cluster)
  {
    forall d, k: nat | k < |targets| && SameObjectsAs(c)(d)
      ensures SameObjectsAs(c)(ReloadHandler(ctx, trigger)(d, targets[k], k).cluster)
    {
      ReloadOneCases(ctx, d, targets[k], trigger, k);
      TriggeredKeepsObjects(ctx, d, Refreshed(ctx, d, targets[k], k), trigger, k, READINGS * k + 1);
    }
    LoopKeeps(ReloadHandler(ctx, trigger), c, targets, |targets|, SameObjectsAs(c));
  }

  /* ---- Settled resources ---- */

  /** Reconcile looks at this resource for its key: no config has the key, and for a ConfigMap no Secret has. */
  ghost predicate Reached(c: Cluster, kind: string, key: ObjectKey)
  {
    && IsResourceKind(kind)
    && FindConfig(c, key) == |c.configs|
    && (kind == KIND_CONFIGMAP ==> FindResource(c, KIND_SECRET, key) == |c.resources|)
    && FindResource(c, kind, key) < |c.resources|
  }

  function The(c: Cluster, kind: string, key: ObjectKey): Resource
    requires FindResource(c, kind, key) < |c.resources|
  {
    c.resources[FindResource(c, kind, key)]
  }

  /** The annotation holds the hash of the data. */
  ghost predicate UpToDate(x: Platform, c: Cluster, kind: string, key: ObjectKey)
  {
    Reached(c, kind, key) && StoredHash(The(c, kind, key)) == ResourceHash(x, The(c, kind, key))
  }

  ghost predicate Idle(pass: Pass, c: Cluster)
  {
    pass.cluster == c && pass.outcomes == [] && pass.requests == []
  }

  lemma DispatchReaches(ctx: Context, probes: (Context, Context), o: Options, c: Cluster, kind: string, key: ObjectKey)
    requires Reached(c, kind, key)
    ensures var d := Dispatch(ctx, probes, o, c, key);
            d == Existing(FindResource(c, kind, key)) || (d.Nothing? && d.err.Some?)
  {
  }

  /** As long as the lookups do not fail, a request leads to a resource of its key exactly when no earlier kind has
      that key. */
  lemma DispatchExactly(ctx: Context, probes: (Context, Context), o: Options, c: Cluster, kind: string, key: ObjectKey)
    requires IsResourceKind(kind) && FindResource(c, kind, key) < |c.resources|
    requires ctx.Fault(GetConfig) == ctx.Fault(GetSecret) == ctx.Fault(GetConfigMap) == None
    ensures Dispatch(ctx, probes, o, c, key) == Existing(FindResource(c, kind, key)) <==>
            FindConfig(c, key) == |c.configs| && (kind == KIND_CONFIGMAP ==>
                                                  FindResource(c, KIND_SECRET, key) == |c.resources|)
  {
  }

  lemma PersistUpdates(ctx: Context, c: Cluster, d: Cluster, i: nat, hash: string)
    requires SameObjects(c, d) && i < |c.resources|
    requires FindResource(c, c.resources[i].kind, c.resources[i].key) == i
    requires HashPersisted(ctx, d, c.resources[i], hash).err == None
    ensures var d' := HashPersisted(ctx, d, c.resources[i], hash).cluster;
            && d'.configs == c.configs
            && d'.resources == c.resources[i := WithHashAnnotation(c.resources[i], hash)]
            && d'.writes > c.writes
  {
  }

  /** A reconcile that gets past the hash check and succeeds stores the hash, whatever became of the targets. */
  lemma ResourcePassStores(ctx: Context, o: Options, c: Cluster, i: nat)
    requires i < |c.resources| && IsResourceKind(c.resources[i].kind)
    requires FindResource(c, c.resources[i].kind, c.resources[i].key) == i
    requires !Ignored(c.resources[i]) && ResourcePass(ctx, o, c, c.resources[i]).err == None
    ensures var r := c.resources[i]; var c' := ResourcePass(ctx, o, c, r).cluster;
            var hash := ResourceHash(ctx.platform, r);
            if hash == StoredHash(r) && !(hash == "" && o.reloadOnCreate) then c' == c
            else c'.configs == c.configs && c'.resources == c.resources[i := WithHashAnnotation(r, hash)] &&
                 c'.writes > c.writes
  {
    var r := c.resources[i];
    var s, hash := SubjectOf(r), ResourceHash(ctx.platform, r);
    match Discovered(ctx, o, c, s)
    case Err(_) =>
    case Ok(found) =>
      var trigger := Changed(s.kind, s.name, s.namespace, hash);
      var d := Reloading(ctx, c, found, s, trigger).cluster;
      ExecutedKeepsObjects(ctx, c, Filtered(ctx, c, found.targets, s), trigger);
      if HashPersisted(ctx, c, r, hash).err == None {
        PersistUpdates(ctx, c, c, i, hash);
      }
      if HashPersisted(ctx, d, r, hash).err == None {
        PersistUpdates(ctx, c, d, i, hash);
      }
  }

  /** The stored hash of a changed resource advances exactly when its reconcile returns no error, so a failed one is
      repeated; paused and failed targets do not hold it back. */
  lemma HashAdvancesOnSuccess(ctx: Context, o: Options, c: Cluster, i: nat)
    requires i < |c.resources| && IsResourceKind(c.resources[i].kind)
    requires FindResource(c, c.resources[i].kind, c.resources[i].key) == i
    requires !Ignored(c.resources[i]) && StoredHash(c.resources[i]) != ResourceHash(ctx.platform, c.resources[i])
    ensures var pass := ResourcePass(ctx, o, c, c.resources[i]);
            |pass.cluster.resources| == |c.resources| &&
            if pass.err == None then StoredHash(pass.cluster.resources[i]) == ResourceHash(ctx.platform, c.resources[i])
            else pass.cluster.resources == c.resources
  {
    var r := c.resources[i];
    var s, hash := SubjectOf(r), ResourceHash(ctx.platform, r);
    match Discovered(ctx, o, c, s)
    case Err(_) =>
    case Ok(found) =>
      ExecutedKeepsObjects(ctx, c, Filtered(ctx, c, found.targets, s), Changed(s.kind, s.name, s.namespace, hash));
      if ResourcePass(ctx, o, c, r).err == None {
        ResourcePassStores(ctx, o, c, i);
      }
  }

  /** A successful reconcile of a resource that is not ignored leaves it up to date. */
  lemma SuccessMakesUpToDate(ctx: Context, probes: (Context, Context), o: Options, c: Cluster, kind: string,
                             key: ObjectKey)
    requires Reached(c, kind, key) && !Ignored(The(c, kind, key))
    requires Reconciled(ctx, probes, o, c, key).err == None
    ensures UpToDate(ctx.platform, Reconciled(ctx, probes, o, c, key).cluster, kind, key)
    ensures DataOf(The(Reconciled(ctx, probes, o, c, key).cluster, kind, key)) == DataOf(The(c, kind, key))
  {
    var i, c' := FindResource(c, kind, key), Reconciled(ctx, probes, o, c, key).cluster;
    DispatchReaches(ctx, probes, o, c, kind, key);
    ResourcePassStores(ctx, o, c, i);
    ReconciledIsSame(ctx, probes, o, c, key);
    SamePositions(c, c', key);
    StoredIsUpToDate(ctx.platform, c, c', kind, key);
  }

  lemma StoredIsUpToDate(x: Platform, c: Cluster, c': Cluster, kind: string, key: ObjectKey)
    requires Reached(c, kind, key) && |c'.configs| == |c.configs| && |c'.resources| == |c.resources|
    requires FindConfig(c', key) == FindConfig(c, key) &&
             forall k :: FindResource(c', k, key) == FindResource(c, k, key)
    requires var r, r' := The(c, kind, key), c'.resources[FindResource(c, kind, key)];
             r' == WithHashAnnotation(r, ResourceHash(x, r)) || (r' == r && StoredHash(r) == ResourceHash(x, r))
    ensures UpToDate(x, c', kind, key) && DataOf(The(c', kind, key)) == DataOf(The(c, kind, key))
  {
    HashDependsOnData(x, The(c, kind, key), c'.resources[FindResource(c, kind, key)]);
  }

  lemma SamePositions(c: Cluster, c': Cluster, key: ObjectKey)
    requires Same(c, c')
    ensures FindConfig(c, key) == FindConfig(c', key)
    ensures forall kind :: FindResource(c, kind, key) == FindResource(c', kind, key)
  {
  }

  /** A Secret or ConfigMap that shares its key with a config, and a ConfigMap that shares its key with a Secret, is
      never handled: Reconcile stops at the first kind, so a request for the key is about that one or fails. */
  lemma EarlierKindHides(ctx: Context, probes: (Context, Context), o: Options, c: Cluster, i: nat)
    requires i < |c.resources| && IsResourceKind(c.resources[i].kind)
    requires FindConfig(c, c.resources[i].key) < |c.configs| ||
             (c.resources[i].kind == KIND_CONFIGMAP && FindResource(c, KIND_SECRET, c.resources[i].key) < |c.resources|)
    ensures var c' := Reconciled(ctx, probes, o, c, c.resources[i].key).cluster;
            |c'.resources| == |c.resources| && c'.resources[i] == c.resources[i]
    ensures var d := Dispatch(ctx, probes, o, c, c.resources[i].key);
            !d.Gone? && (d.Existing? ==> c.resources[i].kind == KIND_CONFIGMAP && c.resources[d.i].kind == KIND_SECRET)
  {
    match Dispatch(ctx, probes, o, c, c.resources[i].key)
    case Existing(j) => ResourcePassLeavesOthers(ctx, o, c, j, i);
    case _ =>
  }

  /** Reconcile would treat it as new again and again: no hash is stored, because there is no data. */
  predicate Restless(o: Options, r: Resource)
  {
    DataOf(r) == map[] && o.reloadOnCreate
  }

  lemma UpToDateIsIdle(ctx: Context, probes: (Context, Context), o: Options, c: Cluster, kind: string, key: ObjectKey)
    requires ctx.platform.Lawful() && UpToDate(ctx.platform, c, kind, key) && !Restless(o, The(c, kind, key))
    ensures Idle(Reconciled(ctx, probes, o, c, key), c)
  {
    DispatchReaches(ctx, probes, o, c, kind, key);
    HashEmptyIffNoData(ctx.platform, The(c, kind, key));
  }

  function NoFaults(): Faults
  {
    (_: Call) => None
  }

  lemma RestlessActs(ctx: Context, probes: (Context, Context), o: Options, c: Cluster, kind: string, key: ObjectKey)
    requires UpToDate(ctx.platform, c, kind, key) && !Ignored(The(c, kind, key)) && Restless(o, The(c, kind, key))
    requires ctx.faults == NoFaults()
    ensures Reconciled(ctx, probes, o, c, key).cluster.writes > c.writes
  {
    var i := FindResource(c, kind, key);
    var r := c.resources[i];
    var s, hash := SubjectOf(r), ResourceHash(ctx.platform, r);
    DispatchReaches(ctx, probes, o, c, kind, key);
    var found := Discovered(ctx, o, c, s).value;
    var trigger := Changed(s.kind, s.name, s.namespace, hash);
    var d := Reloading(ctx, c, found, s, trigger).cluster;
    ExecutedKeepsObjects(ctx, c, Filtered(ctx, c, found.targets, s), trigger);
    SameFirst(c.resources, d.resources, (x: Resource) => x.kind == r.kind && x.key == r.key);
    assert ReadResource(d, r.kind, r.key, None).Ok?;
    ResourcePassStores(ctx, o, c, i);
  }

  /** An up-to-date resource is left alone by every further reconcile, whatever fails in it, exactly when it has
      data or the operator does not reload on creation. */
  lemma QuiescentExactly(x: Platform, o: Options, c: Cluster, kind: string, key: ObjectKey)
    requires x.Lawful() && UpToDate(x, c, kind, key) && !Ignored(The(c, kind, key))
    ensures (forall ctx: Context, probes: (Context, Context) :: ctx.platform == x ==>
             Idle(Reconciled(ctx, probes, o, c, key), c))
            <==> DataOf(The(c, kind, key)) != map[] || !o.reloadOnCreate
  {
    if Restless(o, The(c, kind, key)) {
      var ctx := Context(x, NoFaults(), 0);
      RestlessActs(ctx, (ctx, ctx), o, c, kind, key);
      assert !Idle(Reconciled(ctx, (ctx, ctx), o, c, key), c);
    } else {
      forall ctx: Context, probes: (Context, Context) | ctx.platform == x
        ensures Idle(Reconciled(ctx, probes, o, c, key), c) {
        UpToDateIsIdle(ctx, probes, o, c, kind, key);
      }
    }
  }

  /* ---- Runs ---- */

  /** The controller acts, or somebody edits the cluster. */
  datatype Step = Acting(action: Action) | Editing(cluster: Cluster)

  ghost function Happens(o: Options, c: Cluster, step: Step): Cluster
  {
    match step
    case Acting(action) => Act(o, c, action)
    case Editing(cluster) => cluster
  }

  ghost function After(o: Options, c: Cluster, steps: seq<Step>): Cluster
  {
    if steps == [] then c
    else
      var n := |steps| - 1;
      Happens(o, After(o, c, steps[..n]), steps[n])
  }

  /** The resource is still the one reconciled for its key, with the same data and the same stored hash. */
  ghost predicate LeftAlone(c: Cluster, c': Cluster, kind: string, key: ObjectKey)
  {
    Reached(c, kind, key) && Reached(c', kind, key) &&
    DataOf(The(c', kind, key)) == DataOf(The(c, kind, key)) &&
    StoredHash(The(c', kind, key)) == StoredHash(The(c, kind, key))
  }

  ghost predicate StepLeavesAlone(x: Platform, c: Cluster, step: Step, kind: string, key: ObjectKey)
  {
    match step
    case Acting(action) => action.Reconciling? ==> action.ctx.platform == x
    case Editing(cluster) => LeftAlone(c, cluster, kind, key)
  }

  ghost predicate EditsLeaveAlone(x: Platform, c: Cluster, steps: seq<Step>, kind: string, key: ObjectKey)
  {
    forall n :: 0 <= n < |steps| ==> StepLeavesAlone(x, c, steps[n], kind, key)
  }

  lemma OthersKeepResource(ctx: Context, probes: (Context, Context), o: Options, c: Cluster, i: nat, request: ObjectKey)
    requires i < |c.resources| && c.resources[i].key != request
    ensures var c' := Reconciled(ctx, probes, o, c, request).cluster;
            |c'.resources| == |c.resources| && c'.resources[i] == c.resources[i]
  {
    match Dispatch(ctx, probes, o, c, request)
    case Nothing(_) =>
    case Config(_) =>
    case Existing(j) => ResourcePassLeavesOthers(ctx, o, c, j, i);
    case Gone(s) => DeletePassKeepsObjects(ctx, o, c, s);
  }

  /** Reconciling anything else does not touch the resource. */
  lemma OthersLeaveAlone(ctx: Context, probes: (Context, Context), o: Options, c: Cluster, kind: string, key: ObjectKey,
                         request: ObjectKey)
    requires Reached(c, kind, key) && request != key
    ensures LeftAlone(c, Reconciled(ctx, probes, o, c, request).cluster, kind, key)
  {
    var c' := Reconciled(ctx, probes, o, c, request).cluster;
    ReconciledIsSame(ctx, probes, o, c, request);
    SamePositions(c, c', key);
    OthersKeepResource(ctx, probes, o, c, FindResource(c, kind, key), request);
    SameIsLeftAlone(c, c', kind, key);
  }

  lemma SameIsLeftAlone(c: Cluster, c': Cluster, kind: string, key: ObjectKey)
    requires Reached(c, kind, key) && |c'.configs| == |c.configs| && |c'.resources| == |c.resources|
    requires FindConfig(c', key) == FindConfig(c, key)
    requires FindResource(c', KIND_SECRET, key) == FindResource(c, KIND_SECRET, key)
    requires FindResource(c', kind, key) == FindResource(c, kind, key)
    requires c'.resources[FindResource(c, kind, key)] == The(c, kind, key)
    ensures LeftAlone(c, c', kind, key)
  {
  }

  lemma DeletePassKeepsObjects(ctx: Context, o: Options, c: Cluster, s: Subject)
    ensures SameObjects(c, DeletePass(ctx, o, c, s).cluster)
  {
    match Discovered(ctx, o, c, s)
    case Err(_) =>
    case Ok(found) => ExecutedKeepsObjects(ctx, c, Filtered(ctx, c, found.targets, s), Deleted(s.kind, s.name));
  }

  lemma ResourcePassLeavesOthers(ctx: Context, o: Options, c: Cluster, j: nat, i: nat)
    requires i < |c.resources| && j < |c.resources|
    requires c.resources[i].key != c.resources[j].key || c.resources[i].kind != c.resources[j].kind
    requires IsResourceKind(c.resources[j].kind)
    ensures var c' := ResourcePass(ctx, o, c, c.resources[j]).cluster;
            |c'.resources| == |c.resources| && c'.resources[i] == c.resources[i]
  {
    var r := c.resources[j];
    var s, hash := SubjectOf(r), ResourceHash(ctx.platform, r);
    match Discovered(ctx, o, c, s)
    case Err(_) =>
    case Ok(found) =>
      ExecutedKeepsObjects(ctx, c, Filtered(ctx, c, found.targets, s), Changed(s.kind, s.name, s.namespace, hash));
  }

  lemma StatusUpdateKeepsResources(o: Options, c: Cluster, a: Action)
    requires a.UpdatingStatus?
    ensures Act(o, c, a).resources == c.resources && |Act(o, c, a).configs| == |c.configs| && Same(c, Act(o, c, a))
  {
  }

  lemma StatusUpdateLeavesAlone(o: Options, c: Cluster, a: Action, kind: string, key: ObjectKey)
    requires Reached(c, kind, key) && a.UpdatingStatus?
    ensures LeftAlone(c, Act(o, c, a), kind, key)
  {
    StatusUpdateKeepsResources(o, c, a);
    SamePositions(c, Act(o, c, a), key);
  }

  lemma ReconcileLeavesAlone(ctx: Context, probes: (Context, Context), o: Options, c: Cluster, kind: string,
                             key: ObjectKey, request: ObjectKey)
    requires ctx.platform.Lawful() && UpToDate(ctx.platform, c, kind, key) && !Restless(o, The(c, kind, key))
    ensures LeftAlone(c, Reconciled(ctx, probes, o, c, request).cluster, kind, key)
  {
    if request == key {
      UpToDateIsIdle(ctx, probes, o, c, kind, key);
    } else {
      OthersLeaveAlone(ctx, probes, o, c, kind, key, request);
    }
  }

  lemma LeftAloneStaysUpToDate(x: Platform, o: Options, c: Cluster, d: Cluster, kind: string, key: ObjectKey)
    requires UpToDate(x, c, kind, key) && !Restless(o, The(c, kind, key)) && LeftAlone(c, d, kind, key)
    ensures UpToDate(x, d, kind, key) && !Restless(o, The(d, kind, key))
  {
  }

  lemma ActionLeavesAlone(x: Platform, o: Options, c: Cluster, a: Action, kind: string, key: ObjectKey)
    requires x.Lawful() && UpToDate(x, c, kind, key) && !Restless(o, The(c, kind, key))
    requires a.Reconciling? ==> a.ctx.platform == x
    ensures LeftAlone(c, Act(o, c, a), kind, key)
  {
    match a
    case Reconciling(ctx, probes, request) => ReconcileLeavesAlone(ctx, probes, o, c, kind, key, request);
    case UpdatingStatus(_, _, _) => StatusUpdateLeavesAlone(o, c, a, kind, key);
  }

  lemma StepIsQuiet(x: Platform, o: Options, c: Cluster, d: Cluster, step: Step, kind: string, key: ObjectKey)
    requires x.Lawful() && UpToDate(x, c, kind, key) && !Restless(o, The(c, kind, key))
    requires LeftAlone(c, d, kind, key) && StepLeavesAlone(x, c, step, kind, key)
    ensures LeftAlone(c, Happens(o, d, step), kind, key)
  {
    LeftAloneStaysUpToDate(x, o, c, d, kind, key);
    if step.Acting? {
      ActionLeavesAlone(x, o, d, step.action, kind, key);
    }
  }

  lemma {:induction false} QuietRun(x: Platform, o: Options, c: Cluster, steps: seq<Step>, kind: string, key: ObjectKey)
    requires x.Lawful() && UpToDate(x, c, kind, key) && !Restless(o, The(c, kind, key))
    requires EditsLeaveAlone(x, c, steps, kind, key)
    ensures LeftAlone(c, After(o, c, steps), kind, key)
  {
    if steps == [] {
    } else {
      var n := |steps| - 1;
      QuietRun(x, o, c, steps[..n], kind, key);
      StepIsQuiet(x, o, c, After(o, c, steps[..n]), steps[n], kind, key);
    }
  }

  lemma HashDependsOnData(x: Platform, r: Resource, r': Resource)
    requires DataOf(r) == DataOf(r')
    ensures ResourceHash(x, r) == ResourceHash(x, r')
  {
  }

  /** After a successful reconcile of a resource that is not ignored and has data (or with reload-on-create off),
      over any run of further reconciles, status updates and edits that leave its data and stored hash alone, every
      reconcile of that resource reloads nothing, queues nothing and writes nothing. */
  lemma QuiescentRun(ctx: Context, probes: (Context, Context), o: Options, c: Cluster, kind: string, key: ObjectKey,
                     steps: seq<Step>, later: Context, laterProbes: (Context, Context))
    requires ctx.platform.Lawful() && later.platform == ctx.platform
    requires Reached(c, kind, key) && !Ignored(The(c, kind, key)) && !Restless(o, The(c, kind, key))
    requires Reconciled(ctx, probes, o, c, key).err == None
    requires EditsLeaveAlone(ctx.platform, Reconciled(ctx, probes, o, c, key).cluster, steps, kind, key)
    ensures var d := After(o, Reconciled(ctx, probes, o, c, key).cluster, steps);
            Idle(Reconciled(later, laterProbes, o, d, key), d)
  {
    SuccessMakesUpToDate(ctx, probes, o, c, kind, key);
    var once := Reconciled(ctx, probes, o, c, key).cluster;
    QuietRun(ctx.platform, o, once, steps, kind, key);
    LeftAloneStaysUpToDate(ctx.platform, o, once, After(o, once, steps), kind, key);
    UpToDateIsIdle(later, laterProbes, o, After(o, once, steps), kind, key);
  }

  /* ---- One undisturbed pass settles a resource ---- */

  ghost predicate FaultFree(ctx: Context)
  {
    forall call :: ctx.Fault(call) == None
  }

  lemma PersistSucceeds(ctx: Context, c: Cluster, d: Cluster, i: nat, hash: string)
    requires FaultFree(ctx) && SameObjects(c, d) && i < |c.resources|
    requires FindResource(c, c.resources[i].kind, c.resources[i].key) == i
    ensures HashPersisted(ctx, d, c.resources[i], hash).err == None
  {
    var r := c.resources[i];
    assert FindResource(d, r.kind, r.key) == FindResource(c, r.kind, r.key);
  }

  lemma ResourcePassSucceeds(ctx: Context, o: Options, c: Cluster, i: nat)
    requires FaultFree(ctx) && i < |c.resources| && IsResourceKind(c.resources[i].kind)
    requires FindResource(c, c.resources[i].kind, c.resources[i].key) == i
    ensures ResourcePass(ctx, o, c, c.resources[i]).err == None
  {
    var r := c.resources[i];
    var s, hash := SubjectOf(r), ResourceHash(ctx.platform, r);
    assert ctx.Fault(ListConfigs) == None && ListFault(ctx) == None;
    var found := Discovered(ctx, o, c, s).value;
    var trigger := Changed(s.kind, s.name, s.namespace, hash);
    var d := Reloading(ctx, c, found, s, trigger).cluster;
    ExecutedKeepsObjects(ctx, c, Filtered(ctx, c, found.targets, s), trigger);
    PersistSucceeds(ctx, c, c, i, hash);
    PersistSucceeds(ctx, c, d, i, hash);
  }

  /** A reconcile in which no call fails succeeds, whatever becomes of the targets. */
  lemma FaultFreeSucceeds(ctx: Context, probes: (Context, Context), o: Options, c: Cluster, kind: string,
                          key: ObjectKey)
    requires FaultFree(ctx) && Reached(c, kind, key)
    ensures Reconciled(ctx, probes, o, c, key).err == None
  {
    var i := FindResource(c, kind, key);
    assert ctx.Fault(GetConfig) == None && ctx.Fault(GetSecret) == None && ctx.Fault(GetConfigMap) == None;
    DispatchExactly(ctx, probes, o, c, kind, key);
    ResourcePassSucceeds(ctx, o, c, i);
  }

  /** Convergence: from any state, one reconcile in which no call fails brings a resource that is not ignored up to
      date, and from then on every reconcile of it is idle, over any run that leaves its data and stored hash alone. */
  lemma OnePassSettles(ctx: Context, probes: (Context, Context), o: Options, c: Cluster, kind: string, key: ObjectKey,
                       steps: seq<Step>, later: Context, laterProbes: (Context, Context))
    requires FaultFree(ctx) && ctx.platform.Lawful() && later.platform == ctx.platform
    requires Reached(c, kind, key) && !Ignored(The(c, kind, key)) && !Restless(o, The(c, kind, key))
    requires EditsLeaveAlone(ctx.platform, Reconciled(ctx, probes, o, c, key).cluster, steps, kind, key)
    ensures UpToDate(ctx.platform, Reconciled(ctx, probes, o, c, key).cluster, kind, key)
    ensures var d := After(o, Reconciled(ctx, probes, o, c, key).cluster, steps);
            Idle(Reconciled(later, laterProbes, o, d, key), d)
  {
    FaultFreeSucceeds(ctx, probes, o, c, kind, key);
    SuccessMakesUpToDate(ctx, probes, o, c, kind, key);
    QuiescentRun(ctx, probes, o, c, kind, key, steps, later, laterProbes);
  }
}
