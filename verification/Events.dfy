/** internal/controller/reconciler_events.go: what a changed, new or deleted Secret or ConfigMap sets off. */
module Events {
  import opened Common
  import opened Helpers
  import opened Hash
  import opened Kube
  import opened Api
  import opened Queue
  import opened Updater
  import opened Finder
  import opened Discovery
  import opened Reload

  /** One reconcile: the cluster it leaves, what became of the targets, the status updates it queued, its error. */
  datatype Pass = Pass(cluster: Cluster, outcomes: seq<Outcome>, requests: seq<StatusRequest>, err: Option<string>)

  function SubjectOf(r: Resource): Subject
  {
    Subject(r.kind, r.key.name, r.key.namespace)
  }

  predicate Ignored(r: Resource)
  {
    Lookup(r.annotations, ANNOTATION_IGNORE) == "true"
  }

  function StoredHash(r: Resource): string
  {
    Lookup(r.annotations, ANNOTATION_LAST_HASH)
  }

  function WithHashAnnotation(r: Resource, hash: string): Resource
  {
    r.(annotations := r.annotations[ANNOTATION_LAST_HASH := hash])
  }

  /** updateResourceHash. */
  function HashPersisted(ctx: Context, c: Cluster, r: Resource, hash: string): Effect
  {
    match ReadResource(c, r.kind, r.key, ctx.Fault(WriteHash))
    case Err(m) => Effect(c, Some(m))
    case Ok(i) => Effect(PutResource(c, i, WithHashAnnotation(r, hash)), None)
  }

  method UpdateResourceHash(ctx: Context, api: ApiServer, r: Resource, hash: string) returns (err: Option<string>)
    modifies api
    ensures Effect(api.state, err) == HashPersisted(ctx, old(api.state), r, hash)
  {
    var annotations := r.annotations;
    annotations := annotations[ANNOTATION_LAST_HASH := hash];
    err := api.UpdateResource(r.(annotations := annotations), ctx.Fault(WriteHash));
  }

  /** updateReloaderConfigStatuses: one config-level update for each config. */
  function HashRequests(configs: seq<ReloaderConfig>, s: Subject, hash: string): seq<StatusRequest>
  {
    seq(|configs|, i requires 0 <= i < |configs| => ConfigRequest(configs[i].key, s.namespace, s.kind, s.name, hash))
  }

  function RemovalFor(config: ReloaderConfig, s: Subject): seq<StatusRequest>
  {
    if MakeResourceKey(s.namespace, s.kind, s.name) in config.status.hashes
    then [ConfigRequest(config.key, s.namespace, s.kind, s.name, "")] else []
  }

  /** removeReloaderConfigStatusEntries: a removal for each config that tracks the resource. */
  function RemovalRequests(configs: seq<ReloaderConfig>, s: Subject): seq<StatusRequest>
  {
    if configs == [] then []
    else
      var n := |configs| - 1;
      RemovalRequests(configs[..n], s) + RemovalFor(configs[n], s)
  }

  method UpdateReloaderConfigStatuses(statusQueue: WorkQueue, configs: seq<ReloaderConfig>, s: Subject, hash: string)
    modifies statusQueue
    ensures statusQueue.Value() == EnqueueAll(old(statusQueue.Value()), HashRequests(configs, s, hash))
  {
    ghost var requests := HashRequests(configs, s, hash);
    for i := 0 to |configs|
      invariant statusQueue.Value() == EnqueueAll(old(statusQueue.Value()), requests[..i])
    {
      assert requests[..i + 1] == requests[..i] + [requests[i]];
      EnqueueLast(old(statusQueue.Value()), requests[..i], requests[i]);
      statusQueue.EnqueueRequest(ConfigRequest(configs[i].key, s.namespace, s.kind, s.name, hash));
    }
    assert requests[..|configs|] == requests;
  }

  method RemoveReloaderConfigStatusEntries(statusQueue: WorkQueue, configs: seq<ReloaderConfig>, s: Subject)
    modifies statusQueue
    ensures statusQueue.Value() == EnqueueAll(old(statusQueue.Value()), RemovalRequests(configs, s))
  {
    for i := 0 to |configs|
      invariant statusQueue.Value() == EnqueueAll(old(statusQueue.Value()), RemovalRequests(configs[..i], s))
    {
      assert configs[..i + 1][..i] == configs[..i];
      ghost var before := RemovalRequests(configs[..i], s);
      if MakeResourceKey(s.namespace, s.kind, s.name) !in configs[i].status.hashes {
        assert before + [] == before;
        continue;
      }
      var request := ConfigRequest(configs[i].key, s.namespace, s.kind, s.name, "");
      EnqueueLast(old(statusQueue.Value()), before, request);
      statusQueue.EnqueueRequest(request);
    }
    assert configs[..|configs|] == configs;
  }

  /* ---- The resource exists: its data may have changed ---- */

  /** Discover, filter, reload: the part the three handlers share. */
  function Reloading(ctx: Context, c: Cluster, found: Found, s: Subject, trigger: Trigger): Progress
  {
    var targets := Filtered(ctx, c, found.targets, s);
    Executed(ctx, c, targets, trigger)
  }

  ghost function UpdatePass(ctx: Context, o: Options, c: Cluster, r: Resource): Pass
    requires IsResourceKind(r.kind)
  {
    var s, hash := SubjectOf(r), ResourceHash(ctx.platform, r);
    if Ignored(r) || hash == StoredHash(r) then Pass(c, [], [], None)
    else
      match Discovered(ctx, o, c, s)
      case Err(m) => Pass(c, [], [], Some(m))
      case Ok(found) =>
        var p := Reloading(ctx, c, found, s, Changed(s.kind, s.name, s.namespace, hash));
        var stored := HashPersisted(ctx, p.cluster, r, hash);
        var statusRequests := if Successes(p.outcomes) > 0 then HashRequests(found.configs, s, hash) else [];
        Pass(stored.cluster, p.outcomes, p.requests + statusRequests, stored.err)
  }

  method ReconcileResourceUpdate(ctx: Context, o: Options, api: ApiServer, statusQueue: WorkQueue, r: Resource)
    returns (err: Option<string>, ghost outcomes: seq<Outcome>)
    requires IsResourceKind(r.kind)
    modifies api, statusQueue
    ensures var pass := UpdatePass(ctx, o, old(api.state), r);
            && api.state == pass.cluster && err == pass.err && outcomes == pass.outcomes
            && statusQueue.Value() == EnqueueAll(old(statusQueue.Value()), pass.requests)
  {
    outcomes := [];
    if Lookup(r.annotations, ANNOTATION_IGNORE) == "true" {
      return None, [];
    }
    var computed := GetResourceDataAndHash(ctx.platform, r);
    var currentHash := computed.value;
    if currentHash == StoredHash(r) {
      return None, [];
    }
    var s := SubjectOf(r);
    var discovered := DiscoverTargets(ctx, o, api, s);
    if discovered.Err? {
      return Some(discovered.message), [];
    }
    var found := discovered.value;
    var filtered := FilterTargetsForTargetedReload(ctx, api, found.targets, s);
    var successCount;
    successCount, outcomes := ExecuteReloads(ctx, api, statusQueue, filtered,
                                             Changed(s.kind, s.name, s.namespace, currentHash));
    ghost var requests := Reloading(ctx, old(api.state), found, s,
                                    Changed(s.kind, s.name, s.namespace, currentHash)).requests;
    if successCount > 0 {
      EnqueueInTurn(old(statusQueue.Value()), requests, HashRequests(found.configs, s, currentHash));
      UpdateReloaderConfigStatuses(statusQueue, found.configs, s, currentHash);
    } else {
      assert requests + [] == requests;
    }
    err := UpdateResourceHash(ctx, api, r, currentHash);
  }

  /* ---- A new resource ---- */

  ghost function CreatePass(ctx: Context, o: Options, c: Cluster, r: Resource): Pass
    requires IsResourceKind(r.kind)
  {
    var s, hash := SubjectOf(r), ResourceHash(ctx.platform, r);
    if Ignored(r) then Pass(c, [], [], None)
    else
      match Discovered(ctx, o, c, s)
      case Err(m) => Pass(c, [], [], Some(m))
      case Ok(found) =>
        var p := if o.reloadOnCreate then Reloading(ctx, c, found, s, Changed(s.kind, s.name, s.namespace, hash))
                 else Progress(c, [], []);
        var stored := HashPersisted(ctx, p.cluster, r, hash);
        Pass(stored.cluster, p.outcomes, HashRequests(found.configs, s, hash) + p.requests, stored.err)
  }

  method ReconcileResourceCreated(ctx: Context, o: Options, api: ApiServer, statusQueue: WorkQueue, r: Resource)
    returns (err: Option<string>, ghost outcomes: seq<Outcome>)
    requires IsResourceKind(r.kind)
    modifies api, statusQueue
    ensures var pass := CreatePass(ctx, o, old(api.state), r);
            && api.state == pass.cluster && err == pass.err && outcomes == pass.outcomes
            && statusQueue.Value() == EnqueueAll(old(statusQueue.Value()), pass.requests)
  {
    outcomes := [];
    if Lookup(r.annotations, ANNOTATION_IGNORE) == "true" {
      return None, [];
    }
    var computed := GetResourceDataAndHash(ctx.platform, r);
    var currentHash := computed.value;
    var s := SubjectOf(r);
    var discovered := DiscoverTargets(ctx, o, api, s);
    if discovered.Err? {
      return Some(discovered.message), [];
    }
    var found := discovered.value;
    UpdateReloaderConfigStatuses(statusQueue, found.configs, s, currentHash);
    if o.reloadOnCreate {
      ghost var p := Reloading(ctx, old(api.state), found, s, Changed(s.kind, s.name, s.namespace, currentHash));
      EnqueueInTurn(old(statusQueue.Value()), HashRequests(found.configs, s, currentHash), p.requests);
      var filtered := FilterTargetsForTargetedReload(ctx, api, found.targets, s);
      var successCount;
      successCount, outcomes := ExecuteReloads(ctx, api, statusQueue, filtered,
                                               Changed(s.kind, s.name, s.namespace, currentHash));
    } else {
      assert HashRequests(found.configs, s, currentHash) + [] == HashRequests(found.configs, s, currentHash);
    }
    err := UpdateResourceHash(ctx, api, r, currentHash);
  }

  /* ---- A deleted resource ---- */

  function DeletePass(ctx: Context, o: Options, c: Cluster, s: Subject): Pass
  {
    match Discovered(ctx, o, c, s)
    case Err(m) => Pass(c, [], [], Some(m))
    case Ok(found) =>
      var p := Reloading(ctx, c, found, s, Deleted(s.kind, s.name));
      var removals := if Successes(p.outcomes) > 0 then RemovalRequests(found.configs, s) else [];
      Pass(p.cluster, p.outcomes, p.requests + removals, None)
  }

  method ReconcileResourceDeleted(ctx: Context, o: Options, api: ApiServer, statusQueue: WorkQueue, s: Subject)
    returns (err: Option<string>, ghost outcomes: seq<Outcome>)
    modifies api, statusQueue
    ensures var pass := DeletePass(ctx, o, old(api.state), s);
            && api.state == pass.cluster && err == pass.err && outcomes == pass.outcomes
            && statusQueue.Value() == EnqueueAll(old(statusQueue.Value()), pass.requests)
  {
    outcomes := [];
    var discovered := DiscoverTargets(ctx, o, api, s);
    if discovered.Err? {
      return Some(discovered.message), [];
    }
    var found := discovered.value;
    var filtered := FilterTargetsForTargetedReload(ctx, api, found.targets, s);
    ghost var p := Reloading(ctx, api.state, found, s, Deleted(s.kind, s.name));
    var successCount;
    successCount, outcomes := ExecuteReloads(ctx, api, statusQueue, filtered, Deleted(s.kind, s.name));
    if successCount > 0 {
      EnqueueInTurn(old(statusQueue.Value()), p.requests, RemovalRequests(found.configs, s));
      RemoveReloaderConfigStatusEntries(statusQueue, found.configs, s);
    } else {
      assert p.requests + [] == p.requests;
    }
    err := None;
  }

  /* ---- Which status updates an event queues ---- */

  /** The configs whose status has a record of the resource. */
  function Tracking(configs: seq<ReloaderConfig>, s: Subject): nat -> bool
  {
    (i: nat) => i < |configs| && MakeResourceKey(s.namespace, s.kind, s.name) in configs[i].status.hashes
  }

  /** The requests remove, in order, the record of the resource from the configs at these positions. */
  ghost predicate RemovalsAt(requests: seq<StatusRequest>, configs: seq<ReloaderConfig>, positions: seq<nat>,
                             s: Subject)
  {
    && |requests| == |positions|
    && forall k :: 0 <= k < |positions| ==>
         positions[k] < |configs| && requests[k] == ConfigRequest(configs[positions[k]].key, s.namespace, s.kind,
                                                                  s.name, "")
  }

  /** They remove it from exactly the configs that have one. */
  ghost predicate RemoveRecords(requests: seq<StatusRequest>, configs: seq<ReloaderConfig>, s: Subject)
  {
    RemovalsAt(requests, configs, Kept(|configs|, Tracking(configs, s)), s)
  }

  lemma RemovalsAtNext(requests: seq<StatusRequest>, configs: seq<ReloaderConfig>, positions: seq<nat>, s: Subject)
    requires configs != [] && RemovalsAt(requests, configs[..|configs| - 1], positions, s)
    ensures RemovalsAt(requests, configs, positions, s)
    ensures var n := |configs| - 1;
            RemovalsAt(requests + [ConfigRequest(configs[n].key, s.namespace, s.kind, s.name, "")], configs,
                       positions + [n], s)
  {
  }

  lemma RemoveNext(requests: seq<StatusRequest>, configs: seq<ReloaderConfig>, s: Subject)
    requires configs != [] && RemoveRecords(requests, configs[..|configs| - 1], s)
    ensures RemoveRecords(requests + RemovalFor(configs[|configs| - 1], s), configs, s)
  {
    var n := |configs| - 1;
    KeptSame(n, Tracking(configs[..n], s), Tracking(configs, s));
    RemovalsAtNext(requests, configs, Kept(n, Tracking(configs, s)), s);
    if MakeResourceKey(s.namespace, s.kind, s.name) !in configs[n].status.hashes {
      assert requests + RemovalFor(configs[n], s) == requests;
    }
  }

  /** Removals go, in order, to exactly the configs that have a record of the resource. */
  lemma {:induction false} RemovalsAreExact(configs: seq<ReloaderConfig>, s: Subject)
    ensures RemoveRecords(RemovalRequests(configs, s), configs, s)
  {
    if configs == [] {
    } else {
      var n := |configs| - 1;
      RemovalsAreExact(configs[..n], s);
      RemoveNext(RemovalRequests(configs[..n], s), configs, s);
    }
  }

  lemma {:induction false} SuccessesMeanReloads(outcomes: seq<Outcome>)
    ensures Successes(outcomes) > 0 <==> exists i :: 0 <= i < |outcomes| && outcomes[i].Reloaded?
  {
    if outcomes == [] {
    } else {
      var n := |outcomes| - 1;
      SuccessesMeanReloads(outcomes[..n]);
      if Successes(outcomes[..n]) > 0 {
        var i :| 0 <= i < n && outcomes[..n][i].Reloaded?;
        assert outcomes[i].Reloaded?;
      }
      if i :| 0 <= i < n && outcomes[i].Reloaded? {
        assert outcomes[..n][i].Reloaded?;
      }
    }
  }

  /** The requests record a hash of the resource with each of the configs, in order. */
  ghost predicate RecordHash(requests: seq<StatusRequest>, configs: seq<ReloaderConfig>, s: Subject, hash: string)
  {
    && |requests| == |configs|
    && forall k :: 0 <= k < |configs| ==>
         requests[k] == ConfigRequest(configs[k].key, s.namespace, s.kind, s.name, hash)
  }

  lemma HashRequestsRecord(configs: seq<ReloaderConfig>, s: Subject, hash: string)
    ensures RecordHash(HashRequests(configs, s, hash), configs, s, hash)
  {
  }

  /** A changed resource queues first one update for each attempted CRD target and then, if at least one target of any
      kind was reloaded, one update with the new hash for each config found; nothing else. */
  lemma UpdateReports(ctx: Context, o: Options, c: Cluster, r: Resource)
    requires IsResourceKind(r.kind) && Speaking(ctx.faults)
    requires !Ignored(r) && ResourceHash(ctx.platform, r) != StoredHash(r) && Discovered(ctx, o, c, SubjectOf(r)).Ok?
    ensures var pass := UpdatePass(ctx, o, c, r); var found := Discovered(ctx, o, c, SubjectOf(r)).value;
            var targets := Filtered(ctx, c, found.targets, SubjectOf(r));
            var attempted := |Kept(|targets|, AttemptedConfigTargets(targets, pass.outcomes))|;
            var reloaded := exists i :: 0 <= i < |pass.outcomes| && pass.outcomes[i].Reloaded?;
            && |pass.outcomes| == |targets|
            && |pass.requests| == attempted + (if reloaded then |found.configs| else 0)
            && RequestsMatch(targets, Progress(pass.cluster, pass.outcomes, pass.requests[..attempted]), |targets|)
            && (if reloaded
                then RecordHash(pass.requests[attempted..], found.configs, SubjectOf(r), ResourceHash(ctx.platform, r))
                else pass.requests[attempted..] == [])
  {
    var s, hash := SubjectOf(r), ResourceHash(ctx.platform, r);
    var found := Discovered(ctx, o, c, s).value;
    var targets := Filtered(ctx, c, found.targets, s);
    var trigger := Changed(s.kind, s.name, s.namespace, hash);
    var p := Executed(ctx, c, targets, trigger);
    ExecutionAccounting(ctx, c, targets, trigger);
    SuccessesMeanReloads(p.outcomes);
    HashRequestsRecord(found.configs, s, hash);
    var hashes := HashRequests(found.configs, s, hash);
    assert (p.requests + hashes)[..|p.requests|] == p.requests && (p.requests + hashes)[|p.requests|..] == hashes;
    assert (p.requests + [])[..|p.requests|] == p.requests;
  }

  /** A new resource queues first one update with its hash for each config found and then, with
      reload-on-create, one update for each attempted CRD target; nothing else. */
  lemma CreateReports(ctx: Context, o: Options, c: Cluster, r: Resource)
    requires IsResourceKind(r.kind) && Speaking(ctx.faults)
    requires !Ignored(r) && Discovered(ctx, o, c, SubjectOf(r)).Ok?
    ensures var pass := CreatePass(ctx, o, c, r); var found := Discovered(ctx, o, c, SubjectOf(r)).value;
            var targets := if o.reloadOnCreate then Filtered(ctx, c, found.targets, SubjectOf(r)) else [];
            && |pass.outcomes| == |targets|
            && |found.configs| <= |pass.requests|
            && pass.requests[..|found.configs|] == HashRequests(found.configs, SubjectOf(r),
                                                                ResourceHash(ctx.platform, r))
            && RequestsMatch(targets, Progress(pass.cluster, pass.outcomes, pass.requests[|found.configs|..]),
                             |targets|)
  {
    var s, hash := SubjectOf(r), ResourceHash(ctx.platform, r);
    var found := Discovered(ctx, o, c, s).value;
    var targets := Filtered(ctx, c, found.targets, s);
    var trigger := Changed(s.kind, s.name, s.namespace, hash);
    var p, hashes := Executed(ctx, c, targets, trigger), HashRequests(found.configs, s, hash);
    ExecutionAccounting(ctx, c, targets, trigger);
    HashRequestsRecord(found.configs, s, hash);
    assert (hashes + p.requests)[|hashes|..] == p.requests && (hashes + p.requests)[..|hashes|] == hashes;
    assert (hashes + [])[|hashes|..] == [] && (hashes + [])[..|hashes|] == hashes;
  }

  /** A deletion queues first one update for each attempted CRD target and then, if at least one target of any kind was
      reloaded, one removal for each config found whose status has a record of the resource; nothing else. */
  lemma DeleteReports(ctx: Context, o: Options, c: Cluster, s: Subject)
    requires Speaking(ctx.faults) && Discovered(ctx, o, c, s).Ok?
    ensures var pass := DeletePass(ctx, o, c, s); var found := Discovered(ctx, o, c, s).value;
            var targets := Filtered(ctx, c, found.targets, s);
            var attempted := |Kept(|targets|, AttemptedConfigTargets(targets, pass.outcomes))|;
            var reloaded := exists i :: 0 <= i < |pass.outcomes| && pass.outcomes[i].Reloaded?;
            && |pass.outcomes| == |targets|
            && attempted <= |pass.requests|
            && RequestsMatch(targets, Progress(pass.cluster, pass.outcomes, pass.requests[..attempted]), |targets|)
            && (if reloaded then RemoveRecords(pass.requests[attempted..], found.configs, s)
                else pass.requests[attempted..] == [])
  {
    var found := Discovered(ctx, o, c, s).value;
    var targets := Filtered(ctx, c, found.targets, s);
    var p, removals := Executed(ctx, c, targets, Deleted(s.kind, s.name)), RemovalRequests(found.configs, s);
    ExecutionAccounting(ctx, c, targets, Deleted(s.kind, s.name));
    SuccessesMeanReloads(p.outcomes);
    RemovalsAreExact(found.configs, s);
    assert (p.requests + removals)[..|p.requests|] == p.requests && (p.requests + removals)[|p.requests|..] == removals;
    assert (p.requests + [])[..|p.requests|] == p.requests;
  }

  /* ---- When a resource is handled ---- */

  /** An update is ignored on request, and skipped when the stored hash is that of the data; any other is discovered,
      filtered and reloaded under the resource's own name with the hash of its data. */
  lemma UpdateDecides(ctx: Context, o: Options, c: Cluster, r: Resource)
    requires IsResourceKind(r.kind)
    ensures var pass, hash := UpdatePass(ctx, o, c, r), ResourceHash(ctx.platform, r);
            var s := Subject(r.kind, r.key.name, r.key.namespace);
            if FindEntry(r.annotations, "reloader.stakater.com/ignore") == Some("true") ||
               Lookup(r.annotations, "reloader.stakater.com/last-hash") == hash
            then pass == Pass(c, [], [], None)
            else
              match Discovered(ctx, o, c, s)
              case Err(m) => pass == Pass(c, [], [], Some(m))
              case Ok(found) =>
                pass.outcomes == Executed(ctx, c, Filtered(ctx, c, found.targets, s),
                                          Changed(r.kind, r.key.name, r.key.namespace, hash)).outcomes
  {
  }

  /** A creation is ignored on request; any other is handled in the same way, but reloads only with reload-on-create. */
  lemma CreateDecides(ctx: Context, o: Options, c: Cluster, r: Resource)
    requires IsResourceKind(r.kind)
    ensures var pass, hash := CreatePass(ctx, o, c, r), ResourceHash(ctx.platform, r);
            var s := Subject(r.kind, r.key.name, r.key.namespace);
            var ignored := FindEntry(r.annotations, "reloader.stakater.com/ignore") == Some("true");
            if ignored then pass == Pass(c, [], [], None)
            else
              match Discovered(ctx, o, c, s)
              case Err(m) => pass == Pass(c, [], [], Some(m))
              case Ok(found) =>
                pass.outcomes == if o.reloadOnCreate
                                 then Executed(ctx, c, Filtered(ctx, c, found.targets, s),
                                               Changed(r.kind, r.key.name, r.key.namespace, hash)).outcomes
                                 else []
  {
  }

  /** Storing a hash changes one annotation. */
  lemma HashAnnotation(r: Resource, hash: string, key: string)
    ensures var r' := WithHashAnnotation(r, hash);
            && FindEntry(r'.annotations, key) ==
               (if key == "reloader.stakater.com/last-hash" then Some(hash) else FindEntry(r.annotations, key))
            && r'.(annotations := r.annotations) == r
  {
  }
}
