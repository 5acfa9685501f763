/** One cluster in which a retry restarts a workload again for the same data. */
module RestartExample {
  import opened Common
  import opened Helpers
  import opened Hash
  import opened Kube
  import opened Api
  import opened Updater
  import opened Finder
  import opened Discovery
  import opened Reload
  import opened Events
  import opened Controller
  import opened Quiescence

  const SOME_DEPLOYMENT := WorkloadKey(KIND_DEPLOYMENT, "app", "default")
  const SOME_POD := ObjectKey("default", "app-0")
  const SOME_SECRET := ObjectKey("default", "password")
  const SOME_SUBJECT := Subject(KIND_SECRET, "password", "default")
  const SOME_TARGET := TargetWorkload(KIND_DEPLOYMENT, "app", "", ROLLOUT_RESTART, "", "", false)
  const SOME_CONFIG := ReloaderConfig(ObjectKey("default", "reloader"), map[], 1,
                                      ConfigSpec(Some(WatchedResources(["password"], [], false)), [SOME_TARGET], "", "",
                                                 false, []),
                                      EMPTY_STATUS)

  /** A config that watches one Secret and restarts one Deployment with one container and one pod. */
  function Scene(data: map<Bytes, Bytes>): Cluster
  {
    Cluster([SOME_CONFIG],
            [Resource(KIND_SECRET, SOME_SECRET, map[], data, map[])],
            [Workload(SOME_DEPLOYMENT, map[], PodTemplate(map[], PodSpec([Container("app", [], [])], [], [])),
                      Some(map["app" := "app"]))],
            map[SOME_POD := map["app" := "app"]],
            0)
  }

  /** The scene, however many writes it has seen. */
  ghost predicate InScene(c: Cluster, data: map<Bytes, Bytes>)
  {
    c.(writes := 0) == Scene(data)
  }

  /** Nothing fails, or only the write of the hash. */
  ghost predicate AtMostHashFails(ctx: Context)
  {
    forall call :: call != WriteHash ==> ctx.Fault(call) == None
  }

  lemma SceneLookups(c: Cluster, data: map<Bytes, Bytes>)
    requires InScene(c, data)
    ensures FindConfig(c, SOME_SECRET) == |c.configs| && FindConfig(c, SOME_CONFIG.key) == 0
    ensures FindResource(c, KIND_SECRET, SOME_SECRET) == 0
    ensures FindWorkload(c, SOME_DEPLOYMENT) == 0
  {
    assert SOME_CONFIG.key.name[0] != SOME_SECRET.name[0];
  }

  /** What the reload of the scene's Secret finds: the one target of the one config. */
  function SceneTarget(o: Options): Target
  {
    ConfigTarget(o, SOME_CONFIG, 0)
  }

  lemma SceneConfigs(ctx: Context, c: Cluster, data: map<Bytes, Bytes>)
    requires InScene(c, data)
    ensures ConfigsFor(ctx, c, SOME_SUBJECT) == [SOME_CONFIG]
  {
    var s := SOME_SUBJECT;
    assert ConfigConcerned(ctx, c, 0, s);
    assert !ShouldIgnoreResource(SOME_CONFIG, s);
    ConfigsAreExact(ctx, c, s);
    var keep := WatchingAndNotIgnoring(ctx, c, s);
    assert keep(0);
    assert Kept(0, keep) == [] && Kept(1, keep) == [0];
  }

  lemma SceneAnnotated(c: Cluster, data: map<Bytes, Bytes>, s: Subject, resourceAnnotations: map<string, string>)
    requires InScene(c, data)
    ensures Annotated(c, s, resourceAnnotations) == []
  {
    forall kind: string ensures AnnotatedOfKind(c, kind, s, resourceAnnotations) == [] {
      var keep := WorkloadsConcerned(c, kind, s, resourceAnnotations);
      assert !ShouldReloadFromAnnotations(map[], c.workloads[0].template.spec, s.kind, s.name, resourceAnnotations);
      assert !keep(0);
      assert Collect(c.workloads, 0, keep, AsTarget()) == [];
      assert Collect(c.workloads, 1, keep, AsTarget()) == [];
    }
  }

  lemma SceneTargets(o: Options)
    ensures ConfigTargets(o, [SOME_CONFIG]) == [SceneTarget(o)]
  {
    assert [SOME_CONFIG][..0] == [];
    assert ConfigTargets(o, []) == [];
  }

  lemma SceneFiltered(ctx: Context, o: Options, c: Cluster, data: map<Bytes, Bytes>)
    requires InScene(c, data)
    ensures Filtered(ctx, c, [SceneTarget(o)], SOME_SUBJECT) == [SceneTarget(o)]
  {
    var targets := [SceneTarget(o)];
    var passing := Passing(ctx, c, targets, SOME_SUBJECT);
    assert passing(0);
    assert Collect(targets, 0, passing, Identity()) == [] && Collect(targets, 1, passing, Identity()) == targets;
  }

  lemma SceneDiscovered(ctx: Context, o: Options, c: Cluster, data: map<Bytes, Bytes>)
    requires InScene(c, data) && AtMostHashFails(ctx)
    ensures Discovered(ctx, o, c, SOME_SUBJECT) == Ok(Found([SceneTarget(o)], [SOME_CONFIG]))
  {
    assert ctx.Fault(ListConfigs) == None && ListFault(ctx) == None;
    SceneConfigs(ctx, c, data);
    SceneAnnotated(c, data, SOME_SUBJECT, ResourceAnnotations(ctx, c, SOME_SUBJECT));
    SceneTargets(o);
    AppendNothing([SceneTarget(o)]);
  }

  lemma SceneRestarted(ctx: Context, c: Cluster, data: map<Bytes, Bytes>)
    requires InScene(c, data) && AtMostHashFails(ctx)
    ensures Restarted(ctx, c, SOME_DEPLOYMENT, 0) == Effect(c.(pods := map[], writes := c.writes + 1), None)
  {
    SceneLookups(c, data);
    var labels := map["app" := "app"];
    var selected := set p | p in c.pods && Selects(p, c.pods[p], SOME_DEPLOYMENT.namespace, labels);
    assert selected == {SOME_POD};
    var deleted := set p | p in selected && ctx.Fault(DeletePod(0, p)).None?;
    assert deleted == {SOME_POD};
    assert c.pods - deleted == map[];
  }

  lemma SceneExecuted(ctx: Context, o: Options, c: Cluster, data: map<Bytes, Bytes>, trigger: Trigger)
    requires InScene(c, data) && AtMostHashFails(ctx)
    ensures var p := Executed(ctx, c, [SceneTarget(o)], trigger);
            p.cluster == c.(pods := map[], writes := c.writes + 1) && p.outcomes == [Reloaded]
  {
    var target, handle := SceneTarget(o), ReloadHandler(ctx, trigger);
    SceneLookups(c, data);
    SceneRestarted(ctx, c, data);
    assert Refreshed(ctx, c, target, 0) == target;
    assert RolloutOf(target) == ROLLOUT_RESTART && target.pausePeriod == "" && target.key == SOME_DEPLOYMENT;
    assert Triggered(ctx, c, target, trigger, 0, 1) == Restarted(ctx, c, SOME_DEPLOYMENT, 0);
    assert HandledUpTo(handle, c, [target], 0) == Progress(c, [], []);
    assert handle(c, target, 0) == ReloadOne(ctx, c, target, trigger, 0);
  }

  lemma SceneReloading(ctx: Context, o: Options, c: Cluster, data: map<Bytes, Bytes>, trigger: Trigger)
    requires InScene(c, data) && AtMostHashFails(ctx)
    ensures var p := Reloading(ctx, c, Found([SceneTarget(o)], [SOME_CONFIG]), SOME_SUBJECT, trigger);
            p.cluster == c.(pods := map[], writes := c.writes + 1) && p.outcomes == [Reloaded]
  {
    SceneFiltered(ctx, o, c, data);
    SceneExecuted(ctx, o, c, data, trigger);
  }

  /** What a pass over the scene leaves: the pod is gone, and the error is that of the write of the hash. */
  ghost predicate PodDeleted(ctx: Context, c: Cluster, pass: Pass)
  {
    && pass.cluster.pods == map[] && pass.outcomes == [Reloaded] && pass.err == ctx.Fault(WriteHash)
    && (pass.err.Some? ==> pass.cluster.resources == c.resources)
    && pass.cluster.configs == c.configs && pass.cluster.workloads == c.workloads
  }

  lemma ScenePersisted(ctx: Context, c: Cluster, data: map<Bytes, Bytes>, hash: string)
    requires InScene(c, data)
    ensures var d := c.(pods := map[], writes := c.writes + 1);
            var stored := HashPersisted(ctx, d, c.resources[0], hash);
            && stored.err == ctx.Fault(WriteHash) && stored.cluster.pods == map[]
            && (stored.err.Some? ==> stored.cluster.resources == c.resources)
            && stored.cluster.configs == c.configs && stored.cluster.workloads == c.workloads
  {
    var d := c.(pods := map[], writes := c.writes + 1);
    SceneLookups(c, data);
    assert FindResource(d, KIND_SECRET, SOME_SECRET) == 0;
  }

  lemma SceneUpdatePass(ctx: Context, o: Options, c: Cluster, data: map<Bytes, Bytes>)
    requires ctx.platform.Lawful() && data != map[] && InScene(c, data) && AtMostHashFails(ctx)
    ensures PodDeleted(ctx, c, UpdatePass(ctx, o, c, c.resources[0]))
  {
    var hash := ResourceHash(ctx.platform, c.resources[0]);
    HashEmptyIffNoData(ctx.platform, c.resources[0]);
    SceneDiscovered(ctx, o, c, data);
    SceneReloading(ctx, o, c, data, Changed(KIND_SECRET, "password", "default", hash));
    ScenePersisted(ctx, c, data, hash);
  }

  lemma SceneCreatePass(ctx: Context, o: Options, c: Cluster, data: map<Bytes, Bytes>)
    requires InScene(c, data) && AtMostHashFails(ctx) && o.reloadOnCreate
    ensures PodDeleted(ctx, c, CreatePass(ctx, o, c, c.resources[0]))
  {
    var hash := ResourceHash(ctx.platform, c.resources[0]);
    SceneDiscovered(ctx, o, c, data);
    SceneReloading(ctx, o, c, data, Changed(KIND_SECRET, "password", "default", hash));
    ScenePersisted(ctx, c, data, hash);
  }

  /** A reconcile of the scene's Secret, whose hash is not stored, deletes the pod. */
  lemma ScenePass(ctx: Context, probes: (Context, Context), o: Options, c: Cluster, data: map<Bytes, Bytes>)
    requires ctx.platform.Lawful() && data != map[] && InScene(c, data) && AtMostHashFails(ctx)
    ensures PodDeleted(ctx, c, Reconciled(ctx, probes, o, c, SOME_SECRET))
  {
    SceneLookups(c, data);
    assert Dispatch(ctx, probes, o, c, SOME_SECRET) == Existing(0);
    if o.reloadOnCreate {
      SceneCreatePass(ctx, o, c, data);
    } else {
      SceneUpdatePass(ctx, o, c, data);
    }
  }

  function HashFails(error: string): Faults
  {
    (call: Call) => if call == WriteHash then Some(error) else None
  }

  /** For example: a config watches a Secret with any data and restarts a Deployment with one pod. The first reconcile
      deletes the pod and then fails to store the hash; once the pod is recreated, the retry, in which nothing fails,
      deletes it again. */
  lemma RestartRepeats(x: Platform, o: Options, data: map<Bytes, Bytes>, t: nat, u: nat, probes: (Context, Context),
                       error: string)
    requires x.Lawful() && data != map[]
    ensures var failed := Reconciled(Context(x, HashFails(error), t), probes, o, Scene(data), SOME_SECRET);
            var recreated := failed.cluster.(pods := Scene(data).pods);
            var retried := Reconciled(Context(x, NoFaults(), u), probes, o, recreated, SOME_SECRET);
            && failed.err == Some(error) && failed.outcomes == [Reloaded] && failed.cluster.pods == map[]
            && retried.err == None && retried.outcomes == [Reloaded] && retried.cluster.pods == map[]
  {
    var first, second := Context(x, HashFails(error), t), Context(x, NoFaults(), u);
    ScenePass(first, probes, o, Scene(data), data);
    ScenePass(second, probes, o, Reconciled(first, probes, o, Scene(data),
                                            SOME_SECRET).cluster.(pods := Scene(data).pods), data);
  }
}
