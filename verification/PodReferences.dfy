/** internal/pkg/util/pod_references.go: does a pod spec mention a Secret or ConfigMap? */
module PodReferences {
  import opened Common
  import opened Helpers
  import opened Kube

  /** The shape shared by all reference fields: a Secret field and a ConfigMap field. */
  predicate Names(secret: Option<string>, configMap: Option<string>, kind: string, name: string)
  {
    if kind == KIND_SECRET then secret == Some(name)
    else kind == KIND_CONFIGMAP && configMap == Some(name)
  }

  function CheckEnv(env: seq<EnvVar>, kind: string, name: string): (r: bool)
    ensures r <==> exists e :: e in env && EnvNames(e, kind, name)
  {
    if env == [] then false
    else if env[0].valueFrom.Some? &&
            Names(env[0].valueFrom.value.secretKeyRef, env[0].valueFrom.value.configMapKeyRef, kind, name) then
      assert EnvNames(env[0], kind, name);
      true
    else
      assert forall e :: e in env ==> e == env[0] || e in env[1..];
      CheckEnv(env[1..], kind, name)
  }

  function CheckEnvFrom(sources: seq<EnvFromSource>, kind: string, name: string): (r: bool)
    ensures r <==> exists e :: e in sources && Names(e.secretRef, e.configMapRef, kind, name)
  {
    if sources == [] then false
    else if Names(sources[0].secretRef, sources[0].configMapRef, kind, name) then true
    else
      assert forall e :: e in sources ==> e == sources[0] || e in sources[1..];
      CheckEnvFrom(sources[1..], kind, name)
  }

  function CheckContainers(containers: seq<Container>, kind: string, name: string): (r: bool)
    ensures r <==> exists c :: c in containers && ContainerNames(c, kind, name)
  {
    if containers == [] then false
    else if CheckEnv(containers[0].env, kind, name) || CheckEnvFrom(containers[0].envFrom, kind, name) then
      assert ContainerNames(containers[0], kind, name);
      true
    else
      assert forall c :: c in containers ==> c == containers[0] || c in containers[1..];
      CheckContainers(containers[1..], kind, name)
  }

  function CheckProjections(sources: seq<Projection>, kind: string, name: string): (r: bool)
    ensures r <==> exists p :: p in sources && Names(p.secret, p.configMap, kind, name)
  {
    if sources == [] then false
    else if Names(sources[0].secret, sources[0].configMap, kind, name) then true
    else
      assert forall p :: p in sources ==> p == sources[0] || p in sources[1..];
      CheckProjections(sources[1..], kind, name)
  }

  function CheckVolumes(volumes: seq<Volume>, kind: string, name: string): (r: bool)
    ensures r <==> exists v :: v in volumes && VolumeNames(v, kind, name)
  {
    if volumes == [] then false
    else if Names(volumes[0].secret, volumes[0].configMap, kind, name) ||
            (volumes[0].projected.Some? && CheckProjections(volumes[0].projected.value, kind, name)) then
      assert VolumeNames(volumes[0], kind, name);
      true
    else
      assert forall v :: v in volumes ==> v == volumes[0] || v in volumes[1..];
      CheckVolumes(volumes[1..], kind, name)
  }

  /** The search over containers, then init containers, then volumes finds a reference exactly when
      one exists anywhere in the pod spec. */
  function CheckPodSpecReferencesResource(spec: PodSpec, kind: string, name: string): (r: bool)
    ensures r <==> References(spec, kind, name)
  {
    CheckContainers(spec.containers + spec.initContainers, kind, name) || CheckVolumes(spec.volumes, kind, name)
  }

  /* ---- What a reference is ---- */

  ghost predicate EnvNames(e: EnvVar, kind: string, name: string)
  {
    e.valueFrom.Some? && Names(e.valueFrom.value.secretKeyRef, e.valueFrom.value.configMapKeyRef, kind, name)
  }

  ghost predicate ContainerNames(c: Container, kind: string, name: string)
  {
    || (exists e :: e in c.env && EnvNames(e, kind, name))
    || (exists e :: e in c.envFrom && Names(e.secretRef, e.configMapRef, kind, name))
  }

  ghost predicate VolumeNames(v: Volume, kind: string, name: string)
  {
    || Names(v.secret, v.configMap, kind, name)
    || (v.projected.Some? && exists p :: p in v.projected.value && Names(p.secret, p.configMap, kind, name))
  }

  ghost predicate References(spec: PodSpec, kind: string, name: string)
  {
    || (exists c :: c in spec.containers && ContainerNames(c, kind, name))
    || (exists c :: c in spec.initContainers && ContainerNames(c, kind, name))
    || (exists v :: v in spec.volumes && VolumeNames(v, kind, name))
  }

  /* ---- Which field belongs to which kind ---- */

  ghost predicate InContainers(spec: PodSpec, c: Container)
  {
    c in spec.containers || c in spec.initContainers
  }

  /** A Secret is referenced exactly when a Secret field of an env entry, an envFrom, a volume or a projected source
      names it. */
  lemma SecretReferences(spec: PodSpec, name: string)
    ensures CheckPodSpecReferencesResource(spec, "Secret", name) <==>
            || (exists c, e :: InContainers(spec, c) && e in c.env && e.valueFrom.Some? &&
                               e.valueFrom.value.secretKeyRef == Some(name))
            || (exists c, e :: InContainers(spec, c) && e in c.envFrom && e.secretRef == Some(name))
            || (exists v :: v in spec.volumes && v.secret == Some(name))
            || (exists v, p :: v in spec.volumes && v.projected.Some? && p in v.projected.value &&
                               p.secret == Some(name))
  {
    SecretContainers(spec, name);
    SecretVolumes(spec, name);
  }

  lemma SecretContainers(spec: PodSpec, name: string)
    ensures (exists c :: InContainers(spec, c) && ContainerNames(c, "Secret", name)) <==>
            || (exists c, e :: InContainers(spec, c) && e in c.env && e.valueFrom.Some? &&
                               e.valueFrom.value.secretKeyRef == Some(name))
            || (exists c, e :: InContainers(spec, c) && e in c.envFrom && e.secretRef == Some(name))
  {
    if c, e :| InContainers(spec, c) && e in c.env && e.valueFrom.Some? &&
               e.valueFrom.value.secretKeyRef == Some(name)
    {
      assert EnvNames(e, "Secret", name);
      assert ContainerNames(c, "Secret", name);
    }
    if c, e :| InContainers(spec, c) && e in c.envFrom && e.secretRef == Some(name) {
      assert ContainerNames(c, "Secret", name);
    }
  }

  lemma SecretVolumes(spec: PodSpec, name: string)
    ensures (exists v :: v in spec.volumes && VolumeNames(v, "Secret", name)) <==>
            || (exists v :: v in spec.volumes && v.secret == Some(name))
            || (exists v, p :: v in spec.volumes && v.projected.Some? && p in v.projected.value &&
                               p.secret == Some(name))
  {
    if v :| v in spec.volumes && v.secret == Some(name) {
      assert VolumeNames(v, "Secret", name);
    }
    if v, p :| v in spec.volumes && v.projected.Some? && p in v.projected.value && p.secret == Some(name) {
      assert VolumeNames(v, "Secret", name);
    }
  }

  /** The same for a ConfigMap and the ConfigMap fields. */
  lemma ConfigMapReferences(spec: PodSpec, name: string)
    ensures CheckPodSpecReferencesResource(spec, "ConfigMap", name) <==>
            || (exists c, e :: InContainers(spec, c) && e in c.env && e.valueFrom.Some? &&
                               e.valueFrom.value.configMapKeyRef == Some(name))
            || (exists c, e :: InContainers(spec, c) && e in c.envFrom && e.configMapRef == Some(name))
            || (exists v :: v in spec.volumes && v.configMap == Some(name))
            || (exists v, p :: v in spec.volumes && v.projected.Some? && p in v.projected.value &&
                               p.configMap == Some(name))
  {
    ConfigMapContainers(spec, name);
    ConfigMapVolumes(spec, name);
  }

  lemma ConfigMapContainers(spec: PodSpec, name: string)
    ensures (exists c :: InContainers(spec, c) && ContainerNames(c, "ConfigMap", name)) <==>
            || (exists c, e :: InContainers(spec, c) && e in c.env && e.valueFrom.Some? &&
                               e.valueFrom.value.configMapKeyRef == Some(name))
            || (exists c, e :: InContainers(spec, c) && e in c.envFrom && e.configMapRef == Some(name))
  {
    if c, e :| InContainers(spec, c) && e in c.env && e.valueFrom.Some? &&
               e.valueFrom.value.configMapKeyRef == Some(name)
    {
      assert EnvNames(e, "ConfigMap", name);
      assert ContainerNames(c, "ConfigMap", name);
    }
    if c, e :| InContainers(spec, c) && e in c.envFrom && e.configMapRef == Some(name) {
      assert ContainerNames(c, "ConfigMap", name);
    }
  }

  lemma ConfigMapVolumes(spec: PodSpec, name: string)
    ensures (exists v :: v in spec.volumes && VolumeNames(v, "ConfigMap", name)) <==>
            || (exists v :: v in spec.volumes && v.configMap == Some(name))
            || (exists v, p :: v in spec.volumes && v.projected.Some? && p in v.projected.value &&
                               p.configMap == Some(name))
  {
    if v :| v in spec.volumes && v.configMap == Some(name) {
      assert VolumeNames(v, "ConfigMap", name);
    }
    if v, p :| v in spec.volumes && v.projected.Some? && p in v.projected.value && p.configMap == Some(name) {
      assert VolumeNames(v, "ConfigMap", name);
    }
  }

  /** Nothing references a resource of any other kind. */
  lemma OtherKindsAreNotReferenced(spec: PodSpec, kind: string, name: string)
    requires kind != "Secret" && kind != "ConfigMap"
    ensures !CheckPodSpecReferencesResource(spec, kind, name)
  {
    forall c: Container ensures !ContainerNames(c, kind, name) {
    }
    forall v: Volume ensures !VolumeNames(v, kind, name) {
    }
  }
}
