/** The Kubernetes objects the controller works on, reduced to the fields it reads or writes, and the
    parts of the platform it treats as given: the digest, time formats, failures of API calls. */
module Kube {
  import opened Common

  newtype byte = x: int | 0 <= x < 256

  type Bytes = seq<byte>

  /* ---- Pod templates and workloads (k8s.io/api/core/v1, apps/v1) ---- */

  datatype EnvVarSource = EnvVarSource(secretKeyRef: Option<string>, configMapKeyRef: Option<string>)

  datatype EnvVar = EnvVar(name: string, value: string, valueFrom: Option<EnvVarSource>)

  datatype EnvFromSource = EnvFromSource(secretRef: Option<string>, configMapRef: Option<string>)

  datatype Container = Container(name: string, env: seq<EnvVar>, envFrom: seq<EnvFromSource>)

  datatype Projection = Projection(secret: Option<string>, configMap: Option<string>)

  datatype Volume = Volume(secret: Option<string>, configMap: Option<string>, projected: Option<seq<Projection>>)

  datatype PodSpec = PodSpec(containers: seq<Container>, initContainers: seq<Container>, volumes: seq<Volume>)

  datatype PodTemplate = PodTemplate(annotations: map<string, string>, spec: PodSpec)

  datatype ObjectKey = ObjectKey(namespace: string, name: string)

  datatype WorkloadKey = WorkloadKey(kind: string, name: string, namespace: string)

  datatype Workload = Workload(
    key: WorkloadKey,
    annotations: map<string, string>,
    template: PodTemplate,
    matchLabels: Option<map<string, string>>)

  /* ---- Secrets and ConfigMaps ---- */

  /** A Secret keeps all its content in `data`; a ConfigMap has text in `data` and bytes in `binaryData`. */
  datatype Resource = Resource(
    kind: string,
    key: ObjectKey,
    annotations: map<string, string>,
    data: map<Bytes, Bytes>,
    binaryData: map<Bytes, Bytes>)

  /* ---- ReloaderConfig (api/v1alpha1/reloaderconfig_types.go) ---- */

  datatype WatchedResources = WatchedResources(
    secrets: seq<string>, configMaps: seq<string>, enableTargetedReload: bool)

  datatype TargetWorkload = TargetWorkload(
    kind: string,
    name: string,
    namespace: string,
    rolloutStrategy: string,
    reloadStrategy: string,
    pausePeriod: string,
    requireReference: bool)

  datatype ResourceReference = ResourceReference(kind: string, name: string, namespace: string)

  datatype ConfigSpec = ConfigSpec(
    watched: Option<WatchedResources>,
    targets: seq<TargetWorkload>,
    rolloutStrategy: string,
    reloadStrategy: string,
    autoReloadAll: bool,
    ignoreResources: seq<ResourceReference>)

  datatype ConditionStatus = True | False | Unknown

  datatype Condition = Condition(
    ctype: string,
    status: ConditionStatus,
    lastTransitionTime: int,
    reason: string,
    message: string,
    observedGeneration: int)

  datatype TargetStatus = TargetStatus(
    key: WorkloadKey,
    lastReloadTime: Option<int>,
    reloadCount: nat,
    pausedUntil: Option<int>,
    lastError: string)

  datatype ConfigStatus = ConfigStatus(
    conditions: seq<Condition>,
    lastReloadTime: Option<int>,
    hashes: map<string, string>,
    reloadCount: nat,
    targets: seq<TargetStatus>,
    observedGeneration: int)

  const EMPTY_STATUS := ConfigStatus([], None, map[], 0, [], 0)

  datatype ReloaderConfig = ReloaderConfig(
    key: ObjectKey,
    annotations: map<string, string>,
    generation: int,
    spec: ConfigSpec,
    status: ConfigStatus)

  /** A workload to reload (internal/pkg/workload/finder.go:32-41). */
  datatype Target = Target(
    key: WorkloadKey,
    rolloutStrategy: string,
    reloadStrategy: string,
    pausePeriod: string,
    requireReference: bool,
    config: Option<ReloaderConfig>)

  /** A status update that a reload asks for; `target` is absent for config-level updates. */
  datatype StatusRequest =
    | ConfigRequest(config: ObjectKey, namespace: string, kind: string, name: string, newHash: string)
    | TargetRequest(config: ObjectKey, target: Target, errorMsg: string)

  /* ---- Stored times ---- */

  /** Times are nanoseconds. */
  const SECOND := 1_000_000_000

  /** The time without its fraction of a second, as RFC 3339 (section 5.6) renders it without one. */
  function Truncate(t: int): int
  {
    t - t % SECOND
  }

  function TruncateOption(t: Option<int>): Option<int>
  {
    match t case None => None case Some(v) => Some(Truncate(v))
  }

  /** A status as the API server keeps it: times lose their fraction of a second on the way there. */
  function Persisted(s: ConfigStatus): ConfigStatus
  {
    s.(conditions := seq(|s.conditions|, i requires 0 <= i < |s.conditions| =>
         s.conditions[i].(lastTransitionTime := Truncate(s.conditions[i].lastTransitionTime))),
       lastReloadTime := TruncateOption(s.lastReloadTime),
       targets := seq(|s.targets|, i requires 0 <= i < |s.targets| =>
         s.targets[i].(lastReloadTime := TruncateOption(s.targets[i].lastReloadTime),
                       pausedUntil := TruncateOption(s.targets[i].pausedUntil))))
  }

  /** A stored status is what was written, with whole seconds and nothing else changed. */
  lemma PersistedExactly(s: ConfigStatus)
    ensures var p := Persisted(s);
            && p.hashes == s.hashes && p.reloadCount == s.reloadCount && p.observedGeneration == s.observedGeneration
            && p.lastReloadTime == TruncateOption(s.lastReloadTime)
            && |p.conditions| == |s.conditions|
            && (forall i :: 0 <= i < |s.conditions| ==>
                  p.conditions[i] ==
                  s.conditions[i].(lastTransitionTime := Truncate(s.conditions[i].lastTransitionTime)))
            && |p.targets| == |s.targets|
            && (forall i :: 0 <= i < |s.targets| ==>
                  p.targets[i] == s.targets[i].(lastReloadTime := TruncateOption(s.targets[i].lastReloadTime),
                                                pausedUntil := TruncateOption(s.targets[i].pausedUntil)))
  {
  }

  /* ---- The cluster ---- */

  /** What the API server stores; lists come in a stable order, pods are kept by their labels.
      `writes` counts the write and delete calls it has accepted. */
  datatype Cluster = Cluster(
    configs: seq<ReloaderConfig>,
    resources: seq<Resource>,
    workloads: seq<Workload>,
    pods: map<ObjectKey, map<string, string>>,
    writes: nat)

  function FindConfig(c: Cluster, key: ObjectKey): (i: nat)
    ensures i <= |c.configs| && (i < |c.configs| ==> c.configs[i].key == key)
  {
    First(c.configs, (x: ReloaderConfig) => x.key == key)
  }

  function FindResource(c: Cluster, kind: string, key: ObjectKey): (i: nat)
    ensures i <= |c.resources| && (i < |c.resources| ==> c.resources[i].kind == kind && c.resources[i].key == key)
  {
    First(c.resources, (x: Resource) => x.kind == kind && x.key == key)
  }

  function FindWorkload(c: Cluster, key: WorkloadKey): (i: nat)
    ensures i <= |c.workloads| && (i < |c.workloads| ==> c.workloads[i].key == key)
  {
    First(c.workloads, (x: Workload) => x.key == key)
  }

  function PutConfigStatus(c: Cluster, i: nat, status: ConfigStatus): Cluster
    requires i < |c.configs|
  {
    c.(configs := c.configs[i := c.configs[i].(status := Persisted(status))], writes := c.writes + 1)
  }

  function PutResource(c: Cluster, i: nat, r: Resource): Cluster
    requires i < |c.resources|
  {
    c.(resources := c.resources[i := r], writes := c.writes + 1)
  }

  function PutWorkload(c: Cluster, i: nat, w: Workload): Cluster
    requires i < |c.workloads|
  {
    c.(workloads := c.workloads[i := w], writes := c.writes + 1)
  }

  /* ---- API calls and their failures ---- */

  /** Every API call one reconcile makes, named by call site and loop position. */
  datatype Call =
    | GetConfig | GetSecret | GetConfigMap
    | ListConfigs | ListWorkloads(kind: string) | GetAnnotatedResource
    | ReadReference(config: nat, target: nat) | ReadFiltered(i: nat)
    | RefreshConfig(i: nat) | ReadPaused(i: nat)
    | ReadReloaded(i: nat) | WriteReloaded(i: nat)
    | ListPods(i: nat) | DeletePod(i: nat, pod: ObjectKey)
    | ReadStamped(i: nat) | WriteStamped(i: nat)
    | WriteHash
    | ReadWatched(kind: string, i: nat) | ReadTarget(i: nat) | WriteStatus

  /** Which calls fail, and with what error text. A failing call has no effect. */
  type Faults = Call -> Option<string>

  /** Error texts are never empty. */
  ghost predicate Speaking(f: Faults)
  {
    forall call :: f(call).Some? ==> f(call).value != ""
  }

  /* ---- Digests, formats, the clock ---- */

  /** Library functions taken as given. `sha256` is the hexadecimal SHA-256 digest. */
  datatype Platform = Platform(
    sha256: Bytes -> string,
    formatTime: int -> string,
    parseTime: string -> Option<int>,
    parseDuration: string -> Option<int>,
    sourceJson: (string, string, string, string) -> string,
    clock: nat -> int)
  {
    /** Digests have 64 characters, time stamps parse to the whole second, the clock never runs back. */
    ghost predicate Lawful()
    {
      (forall b :: |sha256(b)| == 64) &&
      (forall t :: parseTime(formatTime(t)) == Some(Truncate(t))) &&
      (forall i: nat, j: nat :: i <= j ==> clock(i) <= clock(j))
    }
  }

  /** One reconcile's surroundings: the platform, its failing calls, and the clock reading it starts at. */
  datatype Context = Context(platform: Platform, faults: Faults, tick: nat)
  {
    function Fault(call: Call): Option<string>
    {
      faults(call)
    }

    function Now(i: nat): int
    {
      platform.clock(tick + i)
    }
  }
}
