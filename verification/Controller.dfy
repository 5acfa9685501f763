/** internal/controller/reloaderconfig_controller.go: validating a ReloaderConfig, and telling what kind of
    object a reconcile request is about. */
module Controller {
  import opened Common
  import opened Helpers
  import opened Hash
  import opened Kube
  import opened Conditions
  import opened Api
  import opened Queue
  import opened Finder
  import opened Discovery
  import opened Reload
  import opened Events

  /* ---- reconcileReloaderConfig ---- */

  /** What one validation does to a status: the conditions it sets in order, the hashes it records, the generation. */
  datatype Plan = Plan(settings: seq<Setting>, hashes: map<string, string>, generation: int)

  const RECONCILING := Setting(CONDITION_PROGRESSING, True, REASON_RECONCILING, "Reconciling ReloaderConfig")
  const AVAILABLE := Setting(CONDITION_AVAILABLE, True, REASON_RECONCILED,
                             "ReloaderConfig is active and watching resources")
  const NOT_DEGRADED := Setting(CONDITION_DEGRADED, False, REASON_RECONCILED, "")
  const RECONCILED := Setting(CONDITION_PROGRESSING, False, REASON_RECONCILED, "")

  function MissingResource(kind: string, name: string): Setting
  {
    Setting(CONDITION_DEGRADED, True, REASON_RESOURCE_NOT_FOUND, kind + " " + name + " not found")
  }

  function MissingTarget(t: TargetWorkload): Setting
  {
    Setting(CONDITION_DEGRADED, True, REASON_TARGET_NOT_FOUND, "Target " + t.kind + "/" + t.name + " not found")
  }

  /** The hash of the i-th watched resource of a kind, if it can be read. */
  ghost function WatchedHash(ctx: Context, c: Cluster, namespace: string, kind: string,
                             names: seq<string>, i: nat): Option<string>
    requires i < |names|
  {
    match ReadResource(c, kind, ObjectKey(namespace, names[i]), ctx.Fault(ReadWatched(kind, i)))
    case Err(_) => None
    case Ok(r) => Some(ResourceHash(ctx.platform, c.resources[r]))
  }

  function SettingFor(hash: Option<string>, kind: string, name: string): seq<Setting>
  {
    if hash.None? then [MissingResource(kind, name)] else []
  }

  function EntryFor(hash: Option<string>, namespace: string, kind: string, name: string): map<string, string>
  {
    if hash.None? then map[] else map[MakeResourceKey(namespace, kind, name) := hash.value]
  }

  /** The same for every position. */
  ghost function HashReads(ctx: Context, c: Cluster, namespace: string, kind: string,
                           names: seq<string>): nat -> Option<string>
  {
    (i: nat) => if i < |names| then WatchedHash(ctx, c, namespace, kind, names, i) else None
  }

  /** The settings for the first n watched resources of a kind: one for each that cannot be read. */
  function WatchedSettings(hashOf: nat -> Option<string>, kind: string, names: seq<string>, n: nat): seq<Setting>
    requires n <= |names|
  {
    if n == 0 then [] else WatchedSettings(hashOf, kind, names, n - 1) + SettingFor(hashOf(n - 1), kind, names[n - 1])
  }

  /** The hashes of those that can be read. */
  function WatchedHashes(hashOf: nat -> Option<string>, namespace: string, kind: string,
                         names: seq<string>, n: nat): map<string, string>
    requires n <= |names|
  {
    if n == 0 then map[]
    else WatchedHashes(hashOf, namespace, kind, names, n - 1) + EntryFor(hashOf(n - 1), namespace, kind, names[n - 1])
  }

  ghost function AllSettings(ctx: Context, c: Cluster, namespace: string, kind: string,
                             names: seq<string>): seq<Setting>
  {
    WatchedSettings(HashReads(ctx, c, namespace, kind, names), kind, names, |names|)
  }

  ghost function AllHashes(ctx: Context, c: Cluster, namespace: string, kind: string,
                           names: seq<string>): map<string, string>
  {
    WatchedHashes(HashReads(ctx, c, namespace, kind, names), namespace, kind, names, |names|)
  }

  /** The workload that a target of a config in this namespace means. */
  function TargetKey(namespace: string, t: TargetWorkload): WorkloadKey
  {
    WorkloadKey(t.kind, t.name, GetDefaultNamespace(t.namespace, namespace))
  }

  /** The j-th target is missing, cannot be checked, or is of an unsupported kind. */
  predicate TargetUnavailable(ctx: Context, c: Cluster, namespace: string, targets: seq<TargetWorkload>, j: nat)
    requires j < |targets|
  {
    ReadWorkload(c, TargetKey(namespace, targets[j]), ctx.Fault(ReadTarget(j))).Err?
  }

  function Unavailable(ctx: Context, c: Cluster, namespace: string, targets: seq<TargetWorkload>): nat -> bool
  {
    (j: nat) => j < |targets| && TargetUnavailable(ctx, c, namespace, targets, j)
  }

  function TargetSetting(unavailable: bool, t: TargetWorkload): seq<Setting>
  {
    if unavailable then [MissingTarget(t)] else []
  }

  function SettingsFor(unavailable: nat -> bool, targets: seq<TargetWorkload>, n: nat): seq<Setting>
    requires n <= |targets|
  {
    if n == 0 then []
    else SettingsFor(unavailable, targets, n - 1) + TargetSetting(unavailable(n - 1), targets[n - 1])
  }

  function TargetSettings(ctx: Context, c: Cluster, config: ReloaderConfig): seq<Setting>
  {
    SettingsFor(Unavailable(ctx, c, config.key.namespace, config.spec.targets), config.spec.targets,
                |config.spec.targets|)
  }

  ghost function ResourceSettings(ctx: Context, c: Cluster, config: ReloaderConfig): seq<Setting>
  {
    var secrets, configMaps := WatchList(config, KIND_SECRET), WatchList(config, KIND_CONFIGMAP);
    AllSettings(ctx, c, config.key.namespace, KIND_SECRET, secrets) +
    AllSettings(ctx, c, config.key.namespace, KIND_CONFIGMAP, configMaps)
  }

  ghost function ResourceHashes(ctx: Context, c: Cluster, config: ReloaderConfig): map<string, string>
  {
    var secrets, configMaps := WatchList(config, KIND_SECRET), WatchList(config, KIND_CONFIGMAP);
    AllHashes(ctx, c, config.key.namespace, KIND_SECRET, secrets) +
    AllHashes(ctx, c, config.key.namespace, KIND_CONFIGMAP, configMaps)
  }

  function FinalSettings(unavailable: seq<Setting>): seq<Setting>
  {
    unavailable + (if unavailable == [] then [AVAILABLE, NOT_DEGRADED] else []) + [RECONCILED]
  }

  ghost function PlanOf(ctx: Context, c: Cluster, config: ReloaderConfig): Plan
  {
    Plan([RECONCILING] + ResourceSettings(ctx, c, config) + FinalSettings(TargetSettings(ctx, c, config)),
         ResourceHashes(ctx, c, config),
         config.generation)
  }

  function ApplyPlan(s: ConfigStatus, plan: Plan, time: nat -> int): ConfigStatus
  {
    s.(conditions := SetAll(s.conditions, plan.settings, time),
       hashes := s.hashes + plan.hashes,
       observedGeneration := plan.generation)
  }

  /** The i-th setting is made at the i-th clock reading. */
  function Readings(ctx: Context): nat -> int
  {
    (i: nat) => ctx.Now(i)
  }

  ghost function ConfigPass(ctx: Context, c: Cluster, config: ReloaderConfig): Pass
  {
    match ReadConfig(c, config.key, ctx.Fault(WriteStatus))
    case Err(m) => Pass(c, [], [], Some(m))
    case Ok(i) => Pass(PutConfigStatus(c, i, ApplyPlan(config.status, PlanOf(ctx, c, config), Readings(ctx))), [], [],
                       None)
  }

  method ReadWatchedHash(ctx: Context, api: ApiServer, namespace: string, kind: string, names: seq<string>, i: nat)
    returns (hash: Option<string>)
    requires IsResourceKind(kind) && i < |names|
    ensures hash == WatchedHash(ctx, api.state, namespace, kind, names, i)
  {
    var got := api.GetResource(kind, ObjectKey(namespace, names[i]), ctx.Fault(ReadWatched(kind, i)));
    if got.Err? {
      return None;
    }
    var computed := GetResourceDataAndHash(ctx.platform, got.value);
    return Some(computed.value);
  }

  lemma MergeInTurn(a: map<string, string>, b: map<string, string>, c: map<string, string>)
    ensures a + (b + c) == (a + b) + c
  {
  }

  lemma NothingWatched(hashOf: nat -> Option<string>, namespace: string, kind: string, names: seq<string>,
                       settings: seq<Setting>, hashes: map<string, string>)
    ensures settings + WatchedSettings(hashOf, kind, names, 0) == settings
    ensures hashes + WatchedHashes(hashOf, namespace, kind, names, 0) == hashes
  {
  }

  lemma NextWatched(hashOf: nat -> Option<string>, namespace: string, kind: string, names: seq<string>, i: nat,
                    settings: seq<Setting>, hashes: map<string, string>)
    requires i < |names|
    ensures settings + WatchedSettings(hashOf, kind, names, i + 1) ==
            settings + WatchedSettings(hashOf, kind, names, i) + SettingFor(hashOf(i), kind, names[i])
    ensures hashes + WatchedHashes(hashOf, namespace, kind, names, i + 1) ==
            hashes + WatchedHashes(hashOf, namespace, kind, names, i) + EntryFor(hashOf(i), namespace, kind, names[i])
  {
    AppendInTurn(settings, WatchedSettings(hashOf, kind, names, i), SettingFor(hashOf(i), kind, names[i]));
    MergeInTurn(hashes, WatchedHashes(hashOf, namespace, kind, names, i),
                EntryFor(hashOf(i), namespace, kind, names[i]));
  }

  lemma NoTarget(unavailable: nat -> bool, targets: seq<TargetWorkload>, settings: seq<Setting>)
    ensures SettingsFor(unavailable, targets, 0) == [] && settings + SettingsFor(unavailable, targets, 0) == settings
  {
  }

  lemma NextTarget(unavailable: nat -> bool, targets: seq<TargetWorkload>, j: nat, settings: seq<Setting>)
    requires j < |targets|
    ensures settings + SettingsFor(unavailable, targets, j + 1) ==
            settings + SettingsFor(unavailable, targets, j) + TargetSetting(unavailable(j), targets[j])
    ensures SettingsFor(unavailable, targets, j + 1) == [] <==>
            SettingsFor(unavailable, targets, j) == [] && !unavailable(j)
  {
    AppendInTurn(settings, SettingsFor(unavailable, targets, j), TargetSetting(unavailable(j), targets[j]));
  }

  lemma ResourcesInTurn(ctx: Context, c: Cluster, config: ReloaderConfig,
                        settings: seq<Setting>, hashes: map<string, string>)
    ensures match config.spec.watched
            case None =>
              settings + ResourceSettings(ctx, c, config) == settings &&
              hashes + ResourceHashes(ctx, c, config) == hashes
            case Some(w) =>
              var ns := config.key.namespace;
              settings + ResourceSettings(ctx, c, config) ==
                settings + AllSettings(ctx, c, ns, KIND_SECRET, w.secrets)
                + AllSettings(ctx, c, ns, KIND_CONFIGMAP, w.configMaps) &&
              hashes + ResourceHashes(ctx, c, config) ==
                hashes + AllHashes(ctx, c, ns, KIND_SECRET, w.secrets)
                + AllHashes(ctx, c, ns, KIND_CONFIGMAP, w.configMaps)
  {
    var secrets, configMaps := WatchList(config, KIND_SECRET), WatchList(config, KIND_CONFIGMAP);
    MergeInTurn(hashes, AllHashes(ctx, c, config.key.namespace, KIND_SECRET, secrets),
                AllHashes(ctx, c, config.key.namespace, KIND_CONFIGMAP, configMaps));
  }

  lemma FinalInTurn(before: seq<Setting>, unavailable: seq<Setting>)
    ensures before + FinalSettings(unavailable) ==
            if unavailable == [] then before + unavailable + [AVAILABLE] + [NOT_DEGRADED] + [RECONCILED]
            else before + unavailable + [RECONCILED]
  {
  }

  /** The status being built: conditions set in place, the settings made so far counted for the clock. */
  class StatusBuilder {
    const conditions: ConditionList
    var hashes: map<string, string>
    var made: nat
    ghost const initial: seq<Condition>
    ghost var settings: seq<Setting>

    ghost predicate Valid(ctx: Context)
      reads this, conditions
    {
      made == |settings| && conditions.items == SetAll(initial, settings, Readings(ctx))
    }

    constructor (ctx: Context, status: ConfigStatus)
      ensures Valid(ctx) && fresh(conditions)
      ensures initial == status.conditions && settings == [] && hashes == status.hashes
    {
      conditions := new ConditionList(status.conditions);
      hashes, made, initial, settings := status.hashes, 0, status.conditions, [];
    }

    method Set(ctx: Context, s: Setting)
      requires Valid(ctx)
      modifies this`made, this`settings, conditions
      ensures Valid(ctx) && settings == old(settings) + [s]
    {
      SetAllNext(initial, settings, s, Readings(ctx));
      conditions.SetCondition(s, ctx.Now(made));
      made := made + 1;
      settings := settings + [s];
    }

    /** Record the hash of a watched resource, or that it is missing. */
    method Record(ctx: Context, hash: Option<string>, namespace: string, kind: string, name: string)
      requires Valid(ctx)
      modifies this`made, this`settings, this`hashes, conditions
      ensures Valid(ctx)
      ensures settings == old(settings) + SettingFor(hash, kind, name)
      ensures hashes == old(hashes) + EntryFor(hash, namespace, kind, name)
    {
      if hash.None? {
        Set(ctx, MissingResource(kind, name));
      } else {
        hashes := hashes[MakeResourceKey(namespace, kind, name) := hash.value];
      }
    }

    /** What has been built from the given start by recording the first n watched resources of a kind. */
    ghost predicate Recorded(hashOf: nat -> Option<string>, namespace: string, kind: string, names: seq<string>, n: nat,
                             s0: seq<Setting>, h0: map<string, string>)
      requires n <= |names|
      reads this
    {
      settings == s0 + WatchedSettings(hashOf, kind, names, n) &&
      hashes == h0 + WatchedHashes(hashOf, namespace, kind, names, n)
    }

    method InitializeNext(ctx: Context, api: ApiServer, namespace: string, kind: string, names: seq<string>, i: nat,
                          ghost hashOf: nat -> Option<string>, ghost s0: seq<Setting>, ghost h0: map<string, string>)
      requires Valid(ctx) && IsResourceKind(kind) && i < |names|
      requires hashOf(i) == WatchedHash(ctx, api.state, namespace, kind, names, i)
      requires Recorded(hashOf, namespace, kind, names, i, s0, h0)
      modifies this`made, this`settings, this`hashes, conditions
      ensures Valid(ctx)
      ensures Recorded(hashOf, namespace, kind, names, i + 1, s0, h0)
    {
      var hash := ReadWatchedHash(ctx, api, namespace, kind, names, i);
      NextWatched(hashOf, namespace, kind, names, i, s0, h0);
      Record(ctx, hash, namespace, kind, names[i]);
    }

    /** initializeWatchedSecrets and initializeWatchedConfigMaps. */
    method InitializeWatched(ctx: Context, api: ApiServer, namespace: string, kind: string, names: seq<string>)
      requires Valid(ctx) && IsResourceKind(kind)
      modifies this`made, this`settings, this`hashes, conditions
      ensures Valid(ctx)
      ensures settings == old(settings) + AllSettings(ctx, api.state, namespace, kind, names)
      ensures hashes == old(hashes) + AllHashes(ctx, api.state, namespace, kind, names)
    {
      ghost var hashOf, s0, h0 := HashReads(ctx, api.state, namespace, kind, names), settings, hashes;
      NothingWatched(hashOf, namespace, kind, names, s0, h0);
      for i := 0 to |names|
        invariant Valid(ctx)
        invariant Recorded(hashOf, namespace, kind, names, i, s0, h0)
      {
        InitializeNext(ctx, api, namespace, kind, names, i, hashOf, s0, h0);
      }
    }

    /** What has been built from the given start by checking the first n targets, and whether they are all there. */
    ghost predicate Checked(unavailable: nat -> bool, targets: seq<TargetWorkload>, n: nat,
                            s0: seq<Setting>, valid: bool)
      requires n <= |targets|
      reads this
    {
      settings == s0 + SettingsFor(unavailable, targets, n) && (valid <==> SettingsFor(unavailable, targets, n) == [])
    }

    /** Check the next target and say whether all so far are there. */
    method ValidateNext(ctx: Context, api: ApiServer, namespace: string, targets: seq<TargetWorkload>, j: nat,
                        valid: bool,
                        ghost unavailable: nat -> bool, ghost s0: seq<Setting>)
      returns (stillValid: bool)
      requires Valid(ctx) && j < |targets| && unavailable(j) == TargetUnavailable(ctx, api.state, namespace, targets, j)
      requires Checked(unavailable, targets, j, s0, valid)
      modifies this`made, this`settings, conditions
      ensures Valid(ctx)
      ensures Checked(unavailable, targets, j + 1, s0, stillValid)
    {
      NextTarget(unavailable, targets, j, s0);
      var got := api.GetWorkload(TargetKey(namespace, targets[j]), ctx.Fault(ReadTarget(j)));
      if got.Err? {
        Set(ctx, MissingTarget(targets[j]));
        return false;
      }
      return valid;
    }

    method ValidateTargetWorkloads(ctx: Context, api: ApiServer, namespace: string, targets: seq<TargetWorkload>)
      returns (validTargets: bool)
      requires Valid(ctx)
      modifies this`made, this`settings, conditions
      ensures Valid(ctx)
      ensures var missing := SettingsFor(Unavailable(ctx, api.state, namespace, targets), targets, |targets|);
              settings == old(settings) + missing && (validTargets <==> missing == [])
    {
      ghost var unavailable, s0 := Unavailable(ctx, api.state, namespace, targets), settings;
      NoTarget(unavailable, targets, s0);
      validTargets := true;
      for j := 0 to |targets|
        invariant Valid(ctx)
        invariant Checked(unavailable, targets, j, s0, validTargets)
      {
        validTargets := ValidateNext(ctx, api, namespace, targets, j, validTargets, unavailable, s0);
      }
    }

    /** Phase 2: all watched resources. */
    method InitializeAll(ctx: Context, api: ApiServer, config: ReloaderConfig)
      requires Valid(ctx)
      modifies this`made, this`settings, this`hashes, conditions
      ensures Valid(ctx)
      ensures settings == old(settings) + ResourceSettings(ctx, api.state, config)
      ensures hashes == old(hashes) + ResourceHashes(ctx, api.state, config)
    {
      ResourcesInTurn(ctx, api.state, config, settings, hashes);
      if config.spec.watched.Some? {
        InitializeWatched(ctx, api, config.key.namespace, KIND_SECRET, config.spec.watched.value.secrets);
        InitializeWatched(ctx, api, config.key.namespace, KIND_CONFIGMAP, config.spec.watched.value.configMaps);
      }
    }

    /** Phases 3 and 4: the targets, and the closing conditions. */
    method Conclude(ctx: Context, api: ApiServer, config: ReloaderConfig)
      requires Valid(ctx)
      modifies this`made, this`settings, conditions
      ensures Valid(ctx)
      ensures settings == old(settings) + FinalSettings(TargetSettings(ctx, api.state, config))
    {
      FinalInTurn(settings, TargetSettings(ctx, api.state, config));
      var validTargets := ValidateTargetWorkloads(ctx, api, config.key.namespace, config.spec.targets);
      if validTargets {
        Set(ctx, AVAILABLE);
        Set(ctx, NOT_DEGRADED);
      }
      Set(ctx, RECONCILED);
    }
  }

  method ReconcileReloaderConfig(ctx: Context, api: ApiServer, config: ReloaderConfig) returns (err: Option<string>)
    modifies api
    ensures Pass(api.state, [], [], err) == ConfigPass(ctx, old(api.state), config)
  {
    var builder := new StatusBuilder(ctx, config.status);
    builder.Set(ctx, RECONCILING);
    builder.InitializeAll(ctx, api, config);
    builder.Conclude(ctx, api, config);
    assert builder.settings == PlanOf(ctx, api.state, config).settings;
    var status := config.status.(conditions := builder.conditions.items, hashes := builder.hashes,
                                 observedGeneration := config.generation);
    err := api.UpdateConfigStatus(config.key, status, ctx.Fault(WriteStatus));
  }

  /* ---- Validation settles the status ---- */

  lemma {:induction false} LastOfBoth(a: seq<Setting>, b: seq<Setting>, ctype: string)
    ensures LastSetting(a + b, ctype) == if LastSetting(b, ctype).Some? then LastSetting(b, ctype)
            else LastSetting(a, ctype)
  {
    if b == [] {
      AppendNothing(a);
    } else {
      var n := |b| - 1;
      AppendLast(a, b);
      LastOfBoth(a, b[..n], ctype);
    }
  }

  lemma {:induction false} SettingsForTell(unavailable: nat -> bool, targets: seq<TargetWorkload>, n: nat)
    requires n <= |targets|
    ensures SettingsFor(unavailable, targets, n) != [] <==> exists j :: 0 <= j < n && unavailable(j)
    ensures forall s :: s in SettingsFor(unavailable, targets, n) ==> s.ctype == CONDITION_DEGRADED && s.status == True
  {
    if n == 0 {
    } else {
      SettingsForTell(unavailable, targets, n - 1);
    }
  }

  /** Every missing target degrades, and nothing else is said about targets. */
  lemma TargetSettingsDegrade(ctx: Context, c: Cluster, config: ReloaderConfig)
    ensures var settings := TargetSettings(ctx, c, config);
            && (settings != [] <==> exists j :: 0 <= j < |config.spec.targets| &&
                                                TargetUnavailable(ctx, c, config.key.namespace, config.spec.targets, j))
            && (forall s :: s in settings ==> s.ctype == CONDITION_DEGRADED && s.status == True)
  {
    var unavailable := Unavailable(ctx, c, config.key.namespace, config.spec.targets);
    SettingsForTell(unavailable, config.spec.targets, |config.spec.targets|);
    assert forall j :: 0 <= j < |config.spec.targets| ==>
           (unavailable(j) <==> TargetUnavailable(ctx, c, config.key.namespace, config.spec.targets, j));
  }

  lemma LastOfFinal(before: seq<Setting>, unavailable: seq<Setting>)
    requires forall s :: s in unavailable ==> s.ctype == CONDITION_DEGRADED && s.status == True
    ensures var settings := before + FinalSettings(unavailable);
            && LastSetting(settings, CONDITION_PROGRESSING) == Some(RECONCILED)
            && LastSetting(settings, CONDITION_DEGRADED) ==
               Some(if unavailable == [] then NOT_DEGRADED else unavailable[|unavailable| - 1])
            && LastSetting(settings, CONDITION_AVAILABLE) ==
               if unavailable == [] then Some(AVAILABLE) else LastSetting(before, CONDITION_AVAILABLE)
  {
    var middle := unavailable + (if unavailable == [] then [AVAILABLE, NOT_DEGRADED] else []);
    assert before + FinalSettings(unavailable) == (before + middle) + [RECONCILED];
    forall ctype
      ensures LastSetting([RECONCILED], ctype) == if ctype == CONDITION_PROGRESSING then Some(RECONCILED) else None {
      assert [RECONCILED][..0] == [];
    }
    forall ctype: string
      ensures LastSetting(before + FinalSettings(unavailable), ctype) ==
              if ctype == CONDITION_PROGRESSING then Some(RECONCILED)
              else if LastSetting(middle, ctype).Some? then LastSetting(middle, ctype) else LastSetting(before, ctype)
    {
      LastOfBoth(before + middle, [RECONCILED], ctype);
      LastOfBoth(before, middle, ctype);
    }
    if unavailable == [] {
      assert middle == [AVAILABLE, NOT_DEGRADED];
      assert middle[..1] == [AVAILABLE];
      assert LastSetting(middle[..1], CONDITION_AVAILABLE) == Some(AVAILABLE);
    } else {
      assert middle == unavailable;
      NoneOfOtherType(unavailable, CONDITION_AVAILABLE);
    }
  }

  lemma {:induction false} NoneOfOtherType(settings: seq<Setting>, ctype: string)
    requires forall s :: s in settings ==> s.ctype != ctype
    ensures LastSetting(settings, ctype) == None
  {
    if settings == [] {
    } else {
      NoneOfOtherType(settings[..|settings| - 1], ctype);
    }
  }

  /** The last setting about targets is about the last missing one. */
  lemma {:induction false} LastMissing(unavailable: nat -> bool, targets: seq<TargetWorkload>, n: nat) returns (j: nat)
    requires n <= |targets| && SettingsFor(unavailable, targets, n) != []
    ensures j < n && unavailable(j) && forall k :: j < k < n ==> !unavailable(k)
    ensures var settings := SettingsFor(unavailable, targets, n); settings[|settings| - 1] == MissingTarget(targets[j])
  {
    if unavailable(n - 1) {
      j := n - 1;
    } else {
      AppendNothing(SettingsFor(unavailable, targets, n - 1));
      j := LastMissing(unavailable, targets, n - 1);
    }
  }

  lemma ResourcesLeaveAvailable(ctx: Context, c: Cluster, config: ReloaderConfig)
    ensures LastSetting([RECONCILING] + ResourceSettings(ctx, c, config), "Available") == None
  {
    KindSettingsTell(ctx, c, config, "Secret");
    KindSettingsTell(ctx, c, config, "ConfigMap");
    assert "Degraded" != "Available" && "Progressing" != "Available";
    NoneOfOtherType([RECONCILING] + ResourceSettings(ctx, c, config), "Available");
  }

  /** The j-th target is the last one that is missing or cannot be checked. */
  ghost predicate LastUnavailable(ctx: Context, c: Cluster, config: ReloaderConfig, j: nat)
  {
    var targets, namespace := config.spec.targets, config.key.namespace;
    j < |targets| && TargetUnavailable(ctx, c, namespace, targets, j) &&
    forall k: nat :: j < k < |targets| ==> !TargetUnavailable(ctx, c, namespace, targets, k)
  }

  /** The conditions that a validation leaves. */
  ghost function ConditionsAfter(ctx: Context, c: Cluster, config: ReloaderConfig): seq<Condition>
  {
    ApplyPlan(config.status, PlanOf(ctx, c, config), Readings(ctx)).conditions
  }

  lemma ShownAfter(ctx: Context, c: Cluster, config: ReloaderConfig, ctype: string)
    ensures match LastSetting(PlanOf(ctx, c, config).settings, ctype)
            case None => Get(ConditionsAfter(ctx, c, config), ctype) == Get(config.status.conditions, ctype)
            case Some(s) =>
              Get(ConditionsAfter(ctx, c, config), ctype).Some? && Shows(Get(ConditionsAfter(ctx, c, config),
                                                                             ctype).value, s)
  {
    SetAllThenGet(config.status.conditions, PlanOf(ctx, c, config).settings, Readings(ctx), ctype);
  }

  lemma LastInPlan(ctx: Context, c: Cluster, config: ReloaderConfig)
    ensures var settings, missing := PlanOf(ctx, c, config).settings, TargetSettings(ctx, c, config);
            && LastSetting(settings, "Degraded") == Some(if missing == [] then NOT_DEGRADED
                                                         else missing[|missing| - 1])
            && LastSetting(settings, "Available") == if missing == [] then Some(AVAILABLE) else None
  {
    TargetSettingsDegrade(ctx, c, config);
    LastOfFinal([RECONCILING] + ResourceSettings(ctx, c, config), TargetSettings(ctx, c, config));
    ResourcesLeaveAvailable(ctx, c, config);
  }

  lemma LastIsToldLast(ctx: Context, c: Cluster, config: ReloaderConfig, j: nat)
    requires LastUnavailable(ctx, c, config, j)
    ensures var settings := TargetSettings(ctx, c, config);
            settings != [] && settings[|settings| - 1] == MissingTarget(config.spec.targets[j])
  {
    var targets, namespace := config.spec.targets, config.key.namespace;
    var unavailable := Unavailable(ctx, c, namespace, targets);
    assert unavailable(j) == TargetUnavailable(ctx, c, namespace, targets, j);
    TargetSettingsDegrade(ctx, c, config);
    var k := LastMissing(unavailable, targets, |targets|);
    assert unavailable(k) == TargetUnavailable(ctx, c, namespace, targets, k);
    assert k == j;
  }

  /** Degraded names the last target that is missing, and Available stays as it was. */
  lemma MissingTargetIsTold(ctx: Context, c: Cluster, config: ReloaderConfig, j: nat)
    requires LastUnavailable(ctx, c, config, j)
    ensures var after, t := ConditionsAfter(ctx, c, config), config.spec.targets[j];
            var degraded := Get(after, "Degraded");
            && degraded.Some? && degraded.value.status == True && degraded.value.reason == "TargetNotFound"
            && degraded.value.message == "Target " + t.kind + "/" + t.name + " not found"
            && Get(after, "Available") == Get(config.status.conditions, "Available")
  {
    LastIsToldLast(ctx, c, config, j);
    LastInPlan(ctx, c, config);
    ShownAfter(ctx, c, config, "Degraded");
    ShownAfter(ctx, c, config, "Available");
  }

  /** When no target is missing, Available and Degraded both say so, whatever Secrets and ConfigMaps are missing. */
  lemma AvailableIsTold(ctx: Context, c: Cluster, config: ReloaderConfig)
    requires forall j: nat :: j < |config.spec.targets| ==>
               !TargetUnavailable(ctx, c, config.key.namespace, config.spec.targets, j)
    ensures var after := ConditionsAfter(ctx, c, config);
            var degraded, available := Get(after, "Degraded"), Get(after, "Available");
            && degraded.Some? && degraded.value.status == False && degraded.value.reason == "Reconciled"
            && degraded.value.message == ""
            && available.Some? && available.value.status == True && available.value.reason == "Reconciled"
            && available.value.message == "ReloaderConfig is active and watching resources"
  {
    TargetSettingsDegrade(ctx, c, config);
    LastInPlan(ctx, c, config);
    ShownAfter(ctx, c, config, "Degraded");
    ShownAfter(ctx, c, config, "Available");
  }

  /** Some watched Secret or ConfigMap is missing or cannot be read. */
  ghost predicate ResourceMissing(ctx: Context, c: Cluster, config: ReloaderConfig, kind: string)
  {
    var names := WatchList(config, kind);
    exists i :: 0 <= i < |names| &&
      ReadResource(c, kind, ObjectKey(config.key.namespace, names[i]), ctx.Fault(ReadWatched(kind, i))).Err?
  }

  lemma {:induction false} WatchedSettingsTell(hashOf: nat -> Option<string>, kind: string, names: seq<string>, n: nat)
    requires n <= |names|
    ensures WatchedSettings(hashOf, kind, names, n) != [] <==> exists i :: 0 <= i < n && hashOf(i) == None
    ensures forall s :: s in WatchedSettings(hashOf, kind, names, n) ==> s.ctype == "Degraded" && s.status == True
  {
    if n > 0 {
      WatchedSettingsTell(hashOf, kind, names, n - 1);
    }
  }

  lemma KindSettingsTell(ctx: Context, c: Cluster, config: ReloaderConfig, kind: string)
    ensures var settings := AllSettings(ctx, c, config.key.namespace, kind, WatchList(config, kind));
            && (settings != [] <==> ResourceMissing(ctx, c, config, kind))
            && forall s :: s in settings ==> s.ctype == "Degraded" && s.status == True
  {
    var names := WatchList(config, kind);
    var hashOf := HashReads(ctx, c, config.key.namespace, kind, names);
    WatchedSettingsTell(hashOf, kind, names, |names|);
    forall i | 0 <= i < |names|
      ensures hashOf(i) == None <==>
              ReadResource(c, kind, ObjectKey(config.key.namespace, names[i]), ctx.Fault(ReadWatched(kind, i))).Err?
    {
    }
  }

  lemma {:induction false} LastOfDegraded(settings: seq<Setting>)
    requires settings != [] && forall s :: s in settings ==> s.ctype == "Degraded" && s.status == True
    ensures LastSetting(settings, "Degraded").Some? && LastSetting(settings, "Degraded").value.status == True
  {
    assert settings[|settings| - 1] in settings;
  }

  /** What Degraded shows before the closing settings. */
  lemma BeforeClosing(ctx: Context, c: Cluster, config: ReloaderConfig)
    ensures var settings := [RECONCILING] + ResourceSettings(ctx, c, config);
            if ResourceMissing(ctx, c, config, "Secret") || ResourceMissing(ctx, c, config, "ConfigMap")
            then LastSetting(settings, "Degraded").Some? && LastSetting(settings, "Degraded").value.status == True
            else settings == [RECONCILING]
  {
    var resources := ResourceSettings(ctx, c, config);
    KindSettingsTell(ctx, c, config, "Secret");
    KindSettingsTell(ctx, c, config, "ConfigMap");
    if resources != [] {
      LastOfDegraded(resources);
      LastOfBoth([RECONCILING], resources, "Degraded");
    }
  }

  lemma ClosingTime(conditions: seq<Condition>, before: seq<Setting>, time: nat -> int)
    ensures var settings := before + [AVAILABLE, NOT_DEGRADED, RECONCILED];
            var was, now := Get(SetAll(conditions, before, time), "Degraded"),
                            Get(SetAll(conditions, settings, time), "Degraded");
            now.Some? && now.value.lastTransitionTime ==
              if was.Some? && was.value.status == False then was.value.lastTransitionTime else time(|before| + 1)
  {
    var a := before + [AVAILABLE];
    var b := a + [NOT_DEGRADED];
    assert b + [RECONCILED] == before + [AVAILABLE, NOT_DEGRADED, RECONCILED];
    SetAllNext(conditions, before, AVAILABLE, time);
    SetAllNext(conditions, a, NOT_DEGRADED, time);
    SetAllNext(conditions, b, RECONCILED, time);
    SetThenGet(SetAll(conditions, before, time), AVAILABLE, time(|before|), "Degraded");
    SetThenGet(SetAll(conditions, a, time), NOT_DEGRADED, time(|a|), "Degraded");
    SetThenGet(SetAll(conditions, b, time), RECONCILED, time(|b|), "Degraded");
  }

  /** A config that is not degraded and whose targets are all there stays so; but its transition time moves at every
      validation as long as some watched Secret or ConfigMap is missing, for Degraded is set in between. */
  lemma MissingResourceMovesTime(ctx: Context, c: Cluster, config: ReloaderConfig)
    requires forall j: nat :: j < |config.spec.targets| ==>
               !TargetUnavailable(ctx, c, config.key.namespace, config.spec.targets, j)
    requires Get(config.status.conditions, "Degraded").Some?
    requires Get(config.status.conditions, "Degraded").value.status == False
    ensures var now := Get(ConditionsAfter(ctx, c, config), "Degraded");
            var missing := ResourceMissing(ctx, c, config, "Secret") || ResourceMissing(ctx, c, config, "ConfigMap");
            now.Some? && now.value.lastTransitionTime ==
              if missing then ctx.Now(2 + |ResourceSettings(ctx, c, config)|)
              else Get(config.status.conditions, "Degraded").value.lastTransitionTime
  {
    var before := [RECONCILING] + ResourceSettings(ctx, c, config);
    TargetSettingsDegrade(ctx, c, config);
    assert before + FinalSettings([]) == before + [AVAILABLE, NOT_DEGRADED, RECONCILED];
    BeforeClosing(ctx, c, config);
    SetAllThenGet(config.status.conditions, before, Readings(ctx), "Degraded");
    ClosingTime(config.status.conditions, before, Readings(ctx));
  }

  /** A successful validation ends with Progressing false, unique condition types, the observed generation, and
      Degraded true exactly when some target is missing or cannot be checked; otherwise Available is true.
      A missing Secret or ConfigMap alone leaves no trace: Degraded is reset when all targets are there. */
  lemma ValidationOutcome(ctx: Context, c: Cluster, config: ReloaderConfig)
    requires UniqueTypes(config.status.conditions)
    ensures var after := ApplyPlan(config.status, PlanOf(ctx, c, config), Readings(ctx));
            var degraded := Get(after.conditions, CONDITION_DEGRADED);
            var progressing := Get(after.conditions, CONDITION_PROGRESSING);
            var available := Get(after.conditions, CONDITION_AVAILABLE);
            var unavailable := exists j :: 0 <= j < |config.spec.targets| &&
                                           TargetUnavailable(ctx, c, config.key.namespace, config.spec.targets, j);
            && UniqueTypes(after.conditions)
            && after.observedGeneration == config.generation
            && progressing.Some? && progressing.value.status == False
            && degraded.Some? && (degraded.value.status == True <==> unavailable)
            && (!unavailable ==> available.Some? && available.value.status == True)
  {
    var settings := PlanOf(ctx, c, config).settings;
    var missing := TargetSettings(ctx, c, config);
    TargetSettingsDegrade(ctx, c, config);
    LastOfFinal([RECONCILING] + ResourceSettings(ctx, c, config), missing);
    SetAllKeepsUnique(config.status.conditions, settings, Readings(ctx));
    SetAllThenGet(config.status.conditions, settings, Readings(ctx), CONDITION_PROGRESSING);
    SetAllThenGet(config.status.conditions, settings, Readings(ctx), CONDITION_DEGRADED);
    SetAllThenGet(config.status.conditions, settings, Readings(ctx), CONDITION_AVAILABLE);
  }

  lemma WatchedHashSame(ctx: Context, ctx': Context, c: Cluster, c': Cluster, namespace: string, kind: string,
                        names: seq<string>, i: nat)
    requires i < |names| && c.resources == c'.resources
    requires ctx.platform == ctx'.platform && ctx.faults == ctx'.faults
    ensures WatchedHash(ctx, c, namespace, kind, names, i) == WatchedHash(ctx', c', namespace, kind, names, i)
  {
  }

  lemma {:induction false} WatchedSame(hashOf: nat -> Option<string>, hashOf': nat -> Option<string>,
                                       namespace: string, kind: string, names: seq<string>, n: nat)
    requires n <= |names|
    requires forall i: nat :: i < |names| ==> hashOf(i) == hashOf'(i)
    ensures WatchedSettings(hashOf, kind, names, n) == WatchedSettings(hashOf', kind, names, n)
    ensures WatchedHashes(hashOf, namespace, kind, names, n) == WatchedHashes(hashOf', namespace, kind, names, n)
  {
    if n == 0 {
    } else {
      WatchedSame(hashOf, hashOf', namespace, kind, names, n - 1);
    }
  }

  lemma AllWatchedSame(ctx: Context, ctx': Context, c: Cluster, c': Cluster, namespace: string, kind: string,
                       names: seq<string>)
    requires c.resources == c'.resources
    requires ctx.platform == ctx'.platform && ctx.faults == ctx'.faults
    ensures AllSettings(ctx, c, namespace, kind, names) == AllSettings(ctx', c', namespace, kind, names)
    ensures AllHashes(ctx, c, namespace, kind, names) == AllHashes(ctx', c', namespace, kind, names)
  {
    var hashOf, hashOf' := HashReads(ctx, c, namespace, kind, names), HashReads(ctx', c', namespace, kind, names);
    forall i: nat | i < |names| ensures hashOf(i) == hashOf'(i) {
      WatchedHashSame(ctx, ctx', c, c', namespace, kind, names, i);
    }
    WatchedSame(hashOf, hashOf', namespace, kind, names, |names|);
  }

  lemma {:induction false} SettingsForSame(unavailable: nat -> bool, unavailable': nat -> bool,
                                           targets: seq<TargetWorkload>, n: nat)
    requires n <= |targets|
    requires forall j: nat :: j < |targets| ==> unavailable(j) == unavailable'(j)
    ensures SettingsFor(unavailable, targets, n) == SettingsFor(unavailable', targets, n)
  {
    if n == 0 {
    } else {
      SettingsForSame(unavailable, unavailable', targets, n - 1);
    }
  }

  lemma TargetSettingsSame(ctx: Context, ctx': Context, c: Cluster, c': Cluster, config: ReloaderConfig,
                           config': ReloaderConfig)
    requires c.workloads == c'.workloads && config.spec == config'.spec && config.key == config'.key
    requires ctx.faults == ctx'.faults
    ensures TargetSettings(ctx, c, config) == TargetSettings(ctx', c', config')
  {
    SettingsForSame(Unavailable(ctx, c, config.key.namespace, config.spec.targets),
                    Unavailable(ctx', c', config'.key.namespace, config'.spec.targets), config.spec.targets,
                    |config.spec.targets|);
  }

  /** The plan does not depend on any status. */
  lemma PlanSame(ctx: Context, ctx': Context, c: Cluster, c': Cluster, config: ReloaderConfig, config': ReloaderConfig)
    requires c.resources == c'.resources && c.workloads == c'.workloads
    requires config.(status := config'.status) == config'
    requires ctx.platform == ctx'.platform && ctx.faults == ctx'.faults
    ensures PlanOf(ctx, c, config) == PlanOf(ctx', c', config')
  {
    forall kind: string {
      AllWatchedSame(ctx, ctx', c, c', config.key.namespace, kind, WatchList(config, kind));
    }
    TargetSettingsSame(ctx, ctx', c, c', config, config');
  }

  lemma UntimedPersisted(s: ConfigStatus)
    ensures Untimed(Persisted(s).conditions) == Untimed(s.conditions)
    ensures Types(Persisted(s).conditions) == Types(s.conditions)
  {
  }

  lemma {:induction false} UntimedSetAll(a: seq<Condition>, b: seq<Condition>, settings: seq<Setting>, time: nat -> int,
                                         later: nat -> int)
    requires Untimed(a) == Untimed(b)
    ensures Untimed(SetAll(a, settings, time)) == Untimed(SetAll(b, settings, later))
  {
    if settings == [] {
    } else {
      var n := |settings| - 1;
      UntimedSetAll(a, b, settings[..n], time, later);
      UntimedSet(SetAll(a, settings[..n], time), SetAll(b, settings[..n], later), settings[n], time(n), later(n));
    }
  }

  lemma UntimedSet(a: seq<Condition>, b: seq<Condition>, s: Setting, now: int, later: int)
    requires Untimed(a) == Untimed(b)
    ensures Untimed(Set(a, s, now)) == Untimed(Set(b, s, later))
  {
    assert |Untimed(a)| == |a| && |Untimed(b)| == |b|;
    forall i | 0 <= i < |a| ensures a[i].(lastTransitionTime := 0) == b[i].(lastTransitionTime := 0) {
      assert Untimed(a)[i] == Untimed(b)[i];
    }
    assert Position(a, s.ctype) == Position(b, s.ctype);
  }

  lemma PersistedOnce(s: ConfigStatus)
    ensures Persisted(Persisted(s)) == Persisted(s)
  {
  }

  lemma PlanTwice(s: ConfigStatus, plan: Plan, time: nat -> int, later: nat -> int)
    requires UniqueTypes(s.conditions)
    ensures var once := Persisted(ApplyPlan(s, plan, time));
            var twice := Persisted(ApplyPlan(once, plan, later));
            Untimed(twice.conditions) == Untimed(once.conditions) && twice == once.(conditions := twice.conditions)
  {
    var after := ApplyPlan(s, plan, time);
    var once := Persisted(after);
    UntimedPersisted(after);
    SetAllKeepsUnique(s.conditions, plan.settings, time);
    UntimedSetAll(after.conditions, once.conditions, plan.settings, later, later);
    SetAllTwice(s.conditions, plan.settings, time, later);
    UntimedPersisted(ApplyPlan(once, plan, later));
    PersistedOnce(after);
    assert (s.hashes + plan.hashes) + plan.hashes == s.hashes + plan.hashes;
  }

  /** Validating an unchanged cluster a second time, with the same calls failing, changes nothing in the stored
      config but condition transition times. */
  lemma ValidationIsIdempotent(ctx: Context, later: Context, c: Cluster, i: nat)
    requires i < |c.configs| && FindConfig(c, c.configs[i].key) == i
    requires UniqueTypes(c.configs[i].status.conditions)
    requires ctx.platform == later.platform && ctx.faults == later.faults
    requires ctx.Fault(WriteStatus) == None
    ensures var once := ConfigPass(ctx, c, c.configs[i]).cluster;
            |once.configs| == |c.configs| &&
            var second := ConfigPass(later, once, once.configs[i]);
            var twice := second.cluster;
            && second.err == None
            && |twice.configs| == |c.configs|
            && once.resources == twice.resources == c.resources && once.workloads == twice.workloads == c.workloads
            && Untimed(twice.configs[i].status.conditions) == Untimed(once.configs[i].status.conditions)
            && twice.configs[i].(status := once.configs[i].status) == once.configs[i]
            && twice.configs[i].status.(conditions := []) == once.configs[i].status.(conditions := [])
            && forall k :: 0 <= k < |c.configs| && k != i ==> twice.configs[k] == once.configs[k] == c.configs[k]
  {
    var config := c.configs[i];
    var plan := PlanOf(ctx, c, config);
    assert ReadConfig(c, config.key, ctx.Fault(WriteStatus)) == Ok(i);
    var once := PutConfigStatus(c, i, ApplyPlan(config.status, plan, Readings(ctx)));
    assert ConfigPass(ctx, c, config).cluster == once;
    FindSameConfig(c, once, i);
    PlanSame(ctx, later, c, once, config, once.configs[i]);
    assert ReadConfig(once, config.key, later.Fault(WriteStatus)) == Ok(i);
    PlanTwice(config.status, plan, Readings(ctx), Readings(later));
  }

  lemma FindSameConfig(c: Cluster, c': Cluster, i: nat)
    requires i < |c.configs| == |c'.configs| && FindConfig(c, c.configs[i].key) == i
    requires forall j :: 0 <= j < |c.configs| ==> c'.configs[j].key == c.configs[j].key
    ensures FindConfig(c', c'.configs[i].key) == i
  {
  }

  lemma KeysTellKinds(namespace: string, kind: string, name: string, kind': string, name': string)
    requires IsResourceKind(kind) && IsResourceKind(kind')
    ensures MakeResourceKey(namespace, kind, name) == MakeResourceKey(namespace, kind', name') <==>
            kind == kind' && name == name'
  {
    var a, b := MakeResourceKey(namespace, kind, name), MakeResourceKey(namespace, kind', name');
    if a == b {
      assert a[|namespace| + 1] == kind[0] && b[|namespace| + 1] == kind'[0];
      assert kind == kind';
      assert a[|namespace| + |kind| + 2..] == name && b[|namespace| + |kind| + 2..] == name';
    }
  }

  /** Some position lists the name and its read succeeds. */
  ghost predicate ReadAt(hashOf: nat -> Option<string>, names: seq<string>, n: nat, name: string)
    requires n <= |names|
  {
    exists i: nat :: i < n && names[i] == name && hashOf(i).Some?
  }

  lemma ReadAtNext(hashOf: nat -> Option<string>, names: seq<string>, n: nat, name: string)
    requires n < |names|
    ensures ReadAt(hashOf, names, n + 1, name) <==>
            ReadAt(hashOf, names, n, name) || (names[n] == name && hashOf(n).Some?)
  {
    if ReadAt(hashOf, names, n + 1, name) {
      var i: nat :| i < n + 1 && names[i] == name && hashOf(i).Some?;
    }
  }

  /** The entry for a resource is the hash read for its name, if it is listed and some read of it succeeds. */
  lemma {:induction false} WatchedHashesTell(hashOf: nat -> Option<string>, namespace: string, kind: string,
                                             names: seq<string>, n: nat,
                                             kind': string, name: string, hash: string)
    requires n <= |names| && IsResourceKind(kind) && IsResourceKind(kind')
    requires forall i: nat :: i < |names| && names[i] == name && hashOf(i).Some? ==> hashOf(i) == Some(hash)
    ensures FindEntry(WatchedHashes(hashOf, namespace, kind, names, n), MakeResourceKey(namespace, kind', name)) ==
            if kind' == kind && ReadAt(hashOf, names, n, name) then Some(hash) else None
  {
    if n == 0 {
    } else {
      WatchedHashesTell(hashOf, namespace, kind, names, n - 1, kind', name, hash);
      ReadAtNext(hashOf, names, n - 1, name);
      KeysTellKinds(namespace, kind', name, kind, names[n - 1]);
    }
  }

  /** No entry is made under any other key. */
  lemma {:induction false} WatchedHashesElsewhere(hashOf: nat -> Option<string>, namespace: string, kind: string,
                                                  names: seq<string>, n: nat, key: string)
    requires n <= |names| && forall name :: key != MakeResourceKey(namespace, kind, name)
    ensures key !in WatchedHashes(hashOf, namespace, kind, names, n)
  {
    if n == 0 {
    } else {
      WatchedHashesElsewhere(hashOf, namespace, kind, names, n - 1, key);
    }
  }

  /** The name is watched, its resource exists, and some read of it succeeds. */
  ghost predicate WatchedAndRead(ctx: Context, c: Cluster, namespace: string, kind: string,
                                 names: seq<string>, name: string)
  {
    FindResource(c, kind, ObjectKey(namespace, name)) < |c.resources| &&
    exists i: nat :: i < |names| && names[i] == name && ctx.Fault(ReadWatched(kind, i)) == None
  }

  lemma WatchedHashesAreCurrent(ctx: Context, c: Cluster, namespace: string, kind: string,
                                names: seq<string>, kind': string, name: string)
    requires IsResourceKind(kind) && IsResourceKind(kind')
    ensures FindEntry(AllHashes(ctx, c, namespace, kind, names), MakeResourceKey(namespace, kind', name)) ==
            if kind' == kind && WatchedAndRead(ctx, c, namespace, kind, names, name)
            then Some(ResourceHash(ctx.platform, c.resources[FindResource(c, kind, ObjectKey(namespace, name))]))
            else None
  {
    var hashOf, r := HashReads(ctx, c, namespace, kind, names), FindResource(c, kind, ObjectKey(namespace, name));
    var hash := if r < |c.resources| then ResourceHash(ctx.platform, c.resources[r]) else "";
    assert forall i: nat :: i < |names| && names[i] == name ==>
      (hashOf(i) == if r < |c.resources| && ctx.Fault(ReadWatched(kind, i)) == None then Some(hash) else None);
    WatchedHashesTell(hashOf, namespace, kind, names, |names|, kind', name, hash);
    if WatchedAndRead(ctx, c, namespace, kind, names, name) {
      var i: nat :| i < |names| && names[i] == name && ctx.Fault(ReadWatched(kind, i)) == None;
      assert hashOf(i).Some?;
    }
  }

  /** After a validation, whatever reads fail in it, every watched resource that exists and was read is recorded with
      the hash of its present data, and the record of every other resource of the namespace is as it was. */
  lemma ValidationRecordsHashes(ctx: Context, c: Cluster, config: ReloaderConfig, kind: string, name: string)
    requires IsResourceKind(kind)
    ensures var hashes := ApplyPlan(config.status, PlanOf(ctx, c, config), Readings(ctx)).hashes;
            var key := MakeResourceKey(config.key.namespace, kind, name);
            FindEntry(hashes, key) == if WatchedAndRead(ctx, c, config.key.namespace, kind, WatchList(config, kind),
                                                        name)
                                      then Some(ResourceHash(ctx.platform, c.resources[FindResource(c, kind,
                                            ObjectKey(config.key.namespace, name))]))
                                      else FindEntry(config.status.hashes, key)
  {
    WatchedHashesAreCurrent(ctx, c, config.key.namespace, KIND_SECRET, WatchList(config, KIND_SECRET), kind, name);
    WatchedHashesAreCurrent(ctx, c, config.key.namespace, KIND_CONFIGMAP, WatchList(config, KIND_CONFIGMAP), kind,
                            name);
  }

  /** And so is the record under any key that no Secret or ConfigMap of the namespace has. */
  lemma ValidationRecordsNothingElse(ctx: Context, c: Cluster, config: ReloaderConfig, key: string)
    requires forall kind, name :: IsResourceKind(kind) ==> key != MakeResourceKey(config.key.namespace, kind, name)
    ensures FindEntry(ApplyPlan(config.status, PlanOf(ctx, c, config), Readings(ctx)).hashes, key) ==
            FindEntry(config.status.hashes, key)
  {
    var secrets, configMaps := WatchList(config, KIND_SECRET), WatchList(config, KIND_CONFIGMAP);
    WatchedHashesElsewhere(HashReads(ctx, c, config.key.namespace, KIND_SECRET, secrets), config.key.namespace,
                           KIND_SECRET, secrets, |secrets|, key);
    WatchedHashesElsewhere(HashReads(ctx, c, config.key.namespace, KIND_CONFIGMAP, configMaps), config.key.namespace,
                           KIND_CONFIGMAP, configMaps, |configMaps|, key);
  }

  /* ---- Reconcile: which kind of object is it? ---- */

  ghost function ResourcePass(ctx: Context, o: Options, c: Cluster, r: Resource): Pass
    requires IsResourceKind(r.kind)
  {
    if StoredHash(r) == "" && o.reloadOnCreate then CreatePass(ctx, o, c, r) else UpdatePass(ctx, o, c, r)
  }

  predicate Watched(r: Result<Found>)
  {
    r.Ok? && (|r.value.targets| > 0 || |r.value.configs| > 0)
  }

  /** What a request turns out to be about: a config, an existing resource, a deleted one, or nothing. */
  datatype Dispatched = Nothing(err: Option<string>) | Config(i: nat) | Existing(i: nat) | Gone(subject: Subject)

  /** The deletion branch: whose deletion is it? `probes` are the surroundings of the two discoveries that tell. */
  function DispatchMissing(probes: (Context, Context), o: Options, c: Cluster, request: ObjectKey): (d: Dispatched)
    ensures d.Gone? || d == Nothing(None)
  {
    var secret := Subject(KIND_SECRET, request.name, request.namespace);
    var configMap := Subject(KIND_CONFIGMAP, request.name, request.namespace);
    if !o.reloadOnDelete then Nothing(None)
    else if Watched(Discovered(probes.0, o, c, secret)) then Gone(secret)
    else if Watched(Discovered(probes.1, o, c, configMap)) then Gone(configMap)
    else Nothing(None)
  }

  /** The lookups of a request that is not about a config. */
  function DispatchResource(ctx: Context, probes: (Context, Context), o: Options, c: Cluster,
                            request: ObjectKey): (d: Dispatched)
    ensures Dispatchable(c, d)
  {
    var j, k := FindResource(c, KIND_SECRET, request), FindResource(c, KIND_CONFIGMAP, request);
    if ctx.Fault(GetSecret).Some? then Nothing(ctx.Fault(GetSecret))
    else if j < |c.resources| then Existing(j)
    else if ctx.Fault(GetConfigMap).Some? then Nothing(ctx.Fault(GetConfigMap))
    else if k < |c.resources| then Existing(k)
    else DispatchMissing(probes, o, c, request)
  }

  /** The lookups of Reconcile. */
  function Dispatch(ctx: Context, probes: (Context, Context), o: Options, c: Cluster,
                    request: ObjectKey): (d: Dispatched)
    ensures Dispatchable(c, d)
    ensures d.Config? ==> d.i == FindConfig(c, request)
    ensures d.Existing? ==> d.i == FindResource(c, c.resources[d.i].kind, request)
  {
    var i := FindConfig(c, request);
    if ctx.Fault(GetConfig).Some? then Nothing(ctx.Fault(GetConfig))
    else if i < |c.configs| then Config(i)
    else DispatchResource(ctx, probes, o, c, request)
  }

  predicate Dispatchable(c: Cluster, d: Dispatched)
  {
    match d
    case Config(i) => i < |c.configs|
    case Existing(i) => i < |c.resources| && IsResourceKind(c.resources[i].kind)
    case _ => true
  }

  ghost function PassFor(ctx: Context, o: Options, c: Cluster, d: Dispatched): Pass
    requires Dispatchable(c, d)
  {
    match d
    case Nothing(err) => Pass(c, [], [], err)
    case Config(i) => ConfigPass(ctx, c, c.configs[i])
    case Existing(i) => ResourcePass(ctx, o, c, c.resources[i])
    case Gone(subject) => DeletePass(ctx, o, c, subject)
  }

  ghost function Reconciled(ctx: Context, probes: (Context, Context), o: Options, c: Cluster, request: ObjectKey): Pass
  {
    PassFor(ctx, o, c, Dispatch(ctx, probes, o, c, request))
  }

  method ReconcileExisting(ctx: Context, o: Options, api: ApiServer, statusQueue: WorkQueue, r: Resource)
    returns (err: Option<string>, ghost outcomes: seq<Outcome>)
    requires IsResourceKind(r.kind)
    modifies api, statusQueue
    ensures var pass := ResourcePass(ctx, o, old(api.state), r);
            && api.state == pass.cluster && err == pass.err && outcomes == pass.outcomes
            && statusQueue.Value() == EnqueueAll(old(statusQueue.Value()), pass.requests)
  {
    if StoredHash(r) == "" && o.reloadOnCreate {
      err, outcomes := ReconcileResourceCreated(ctx, o, api, statusQueue, r);
    } else {
      err, outcomes := ReconcileResourceUpdate(ctx, o, api, statusQueue, r);
    }
  }

  method ReconcileMissing(ctx: Context, probes: (Context, Context), o: Options, api: ApiServer, statusQueue: WorkQueue,
                          request: ObjectKey)
    returns (err: Option<string>, ghost outcomes: seq<Outcome>)
    modifies api, statusQueue
    ensures var pass := PassFor(ctx, o, old(api.state), DispatchMissing(probes, o, old(api.state), request));
            && api.state == pass.cluster && err == pass.err && outcomes == pass.outcomes
            && statusQueue.Value() == EnqueueAll(old(statusQueue.Value()), pass.requests)
  {
    if !o.reloadOnDelete {
      return None, [];
    }
    var deletedSecret := Subject(KIND_SECRET, request.name, request.namespace);
    var secretTargets := DiscoverTargets(probes.0, o, api, deletedSecret);
    if Watched(secretTargets) {
      err, outcomes := ReconcileResourceDeleted(ctx, o, api, statusQueue, deletedSecret);
      return;
    }
    var deletedConfigMap := Subject(KIND_CONFIGMAP, request.name, request.namespace);
    var configMapTargets := DiscoverTargets(probes.1, o, api, deletedConfigMap);
    if Watched(configMapTargets) {
      err, outcomes := ReconcileResourceDeleted(ctx, o, api, statusQueue, deletedConfigMap);
      return;
    }
    return None, [];
  }

  /** The part of Reconcile after the key has turned out not to be a config's. */
  method ReconcileResource(ctx: Context, probes: (Context, Context), o: Options, api: ApiServer, statusQueue: WorkQueue,
                           request: ObjectKey)
    returns (err: Option<string>, ghost outcomes: seq<Outcome>)
    modifies api, statusQueue
    ensures var pass := PassFor(ctx, o, old(api.state), DispatchResource(ctx, probes, o, old(api.state), request));
            && api.state == pass.cluster && err == pass.err && outcomes == pass.outcomes
            && statusQueue.Value() == EnqueueAll(old(statusQueue.Value()), pass.requests)
  {
    if ctx.Fault(GetSecret).Some? {
      return ctx.Fault(GetSecret), [];
    }
    var secret := api.GetResource(KIND_SECRET, request, None);
    if secret.Ok? {
      err, outcomes := ReconcileExisting(ctx, o, api, statusQueue, secret.value);
      return;
    }
    if ctx.Fault(GetConfigMap).Some? {
      return ctx.Fault(GetConfigMap), [];
    }
    var configMap := api.GetResource(KIND_CONFIGMAP, request, None);
    if configMap.Ok? {
      err, outcomes := ReconcileExisting(ctx, o, api, statusQueue, configMap.value);
      return;
    }
    err, outcomes := ReconcileMissing(ctx, probes, o, api, statusQueue, request);
  }

  method Reconcile(ctx: Context, probes: (Context, Context), o: Options, api: ApiServer, statusQueue: WorkQueue,
                   request: ObjectKey)
    returns (err: Option<string>, ghost outcomes: seq<Outcome>)
    modifies api, statusQueue
    ensures var pass := Reconciled(ctx, probes, o, old(api.state), request);
            && api.state == pass.cluster && err == pass.err && outcomes == pass.outcomes
            && statusQueue.Value() == EnqueueAll(old(statusQueue.Value()), pass.requests)
  {
    if ctx.Fault(GetConfig).Some? {
      return ctx.Fault(GetConfig), [];
    }
    var config := api.GetConfig(request, None);
    if config.Ok? {
      outcomes := [];
      err := ReconcileReloaderConfig(ctx, api, config.value);
      return;
    }
    err, outcomes := ReconcileResource(ctx, probes, o, api, statusQueue, request);
  }

  /* ---- What decides, in the source's own words ---- */

  /** A target is available exactly when its check does not fail and a workload of a supported kind exists under its
      name, in its own namespace or else its config's. */
  lemma AvailableExactly(ctx: Context, c: Cluster, namespace: string, targets: seq<TargetWorkload>, j: nat)
    requires j < |targets|
    ensures var t := targets[j];
            !TargetUnavailable(ctx, c, namespace, targets, j) <==>
              ctx.Fault(ReadTarget(j)) == None &&
              (t.kind == "Deployment" || t.kind == "StatefulSet" || t.kind == "DaemonSet") &&
              exists w :: w in c.workloads && w.key.kind == t.kind && w.key.name == t.name &&
                          w.key.namespace == (if t.namespace == "" then namespace else t.namespace)
  {
    var key := TargetKey(namespace, targets[j]);
    if w :| w in c.workloads && w.key == key {
      var i :| 0 <= i < |c.workloads| && c.workloads[i] == w;
      assert c.workloads[i].key == key;
      assert FindWorkload(c, key) <= i;
    }
  }

  /** A validation leaves alone what reloads record in a status. */
  lemma ValidationLeavesRest(ctx: Context, c: Cluster, config: ReloaderConfig)
    ensures var after := ApplyPlan(config.status, PlanOf(ctx, c, config), Readings(ctx));
            after.lastReloadTime == config.status.lastReloadTime && after.reloadCount == config.status.reloadCount &&
            after.targets == config.status.targets
  {
  }

  /** A resource is treated as new exactly when it has no stored hash and reload-on-create is on. */
  lemma NewExactly(ctx: Context, o: Options, c: Cluster, r: Resource)
    requires IsResourceKind(r.kind)
    ensures ResourcePass(ctx, o, c, r) ==
            if Lookup(r.annotations, "reloader.stakater.com/last-hash") == "" && o.reloadOnCreate
            then CreatePass(ctx, o, c, r) else UpdatePass(ctx, o, c, r)
  {
  }
}
