/** The API server as the controller's client sees it (internal/pkg/util/workload_helpers.go and
    controller-runtime's client): reads, writes, and calls that fail without effect. */
module Api {
  import opened Common
  import opened Helpers
  import opened Kube

  predicate IsWorkloadKind(kind: string)
  {
    kind == KIND_DEPLOYMENT || kind == KIND_STATEFULSET || kind == KIND_DAEMONSET
  }

  function NotFound(kind: string, name: string): string
  {
    kind + " \"" + name + "\" not found"
  }

  /** The position of a workload, or why it cannot be read. */
  function ReadWorkload(c: Cluster, key: WorkloadKey, fault: Option<string>): (r: Result<nat>)
    ensures r.Ok? ==> r.value < |c.workloads| && c.workloads[r.value].key == key
  {
    if !IsWorkloadKind(key.kind) then Err("unsupported workload kind: " + key.kind)
    else if fault.Some? then Err(fault.value)
    else
      var i := FindWorkload(c, key);
      if i < |c.workloads| then Ok(i) else Err(NotFound(key.kind, key.name))
  }

  function ReadConfig(c: Cluster, key: ObjectKey, fault: Option<string>): (r: Result<nat>)
    ensures r.Ok? ==> r.value < |c.configs| && c.configs[r.value].key == key
  {
    if fault.Some? then Err(fault.value)
    else
      var i := FindConfig(c, key);
      if i < |c.configs| then Ok(i) else Err(NotFound("ReloaderConfig", key.name))
  }

  function ReadResource(c: Cluster, kind: string, key: ObjectKey, fault: Option<string>): (r: Result<nat>)
    ensures r.Ok? ==> r.value < |c.resources| && c.resources[r.value].kind == kind && c.resources[r.value].key == key
  {
    if fault.Some? then Err(fault.value)
    else
      var i := FindResource(c, kind, key);
      if i < |c.resources| then Ok(i) else Err(NotFound(kind, key.name))
  }

  /** A workload is read exactly when the call does not fail, its kind is one of the three, and it exists; the first one
      with the key counts. */
  lemma ReadWorkloadExactly(c: Cluster, key: WorkloadKey, fault: Option<string>, i: nat)
    ensures ReadWorkload(c, key, fault) == Ok(i) <==>
            fault == None && (key.kind == "Deployment" || key.kind == "StatefulSet" || key.kind == "DaemonSet") &&
            i < |c.workloads| && c.workloads[i].key == key && forall j :: 0 <= j < i ==> c.workloads[j].key != key
  {
  }

  lemma ReadConfigExactly(c: Cluster, key: ObjectKey, fault: Option<string>, i: nat)
    ensures ReadConfig(c, key, fault) == Ok(i) <==>
            fault == None && i < |c.configs| && c.configs[i].key == key &&
            forall j :: 0 <= j < i ==> c.configs[j].key != key
  {
  }

  lemma ReadResourceExactly(c: Cluster, kind: string, key: ObjectKey, fault: Option<string>, i: nat)
    ensures ReadResource(c, kind, key, fault) == Ok(i) <==>
            fault == None && i < |c.resources| && c.resources[i].kind == kind && c.resources[i].key == key &&
            forall j :: 0 <= j < i ==> !(c.resources[j].kind == kind && c.resources[j].key == key)
  {
  }

  predicate Selects(pod: ObjectKey, podLabels: map<string, string>, namespace: string, matchLabels: map<string, string>)
  {
    pod.namespace == namespace && forall k :: k in matchLabels ==> k in podLabels && podLabels[k] == matchLabels[k]
  }

  /** The server's state, and the calls the controller makes on it. */
  class ApiServer {
    var state: Cluster

    constructor (state: Cluster)
      ensures this.state == state
    {
      this.state := state;
    }

    method GetWorkload(key: WorkloadKey, fault: Option<string>) returns (r: Result<Workload>)
      ensures match ReadWorkload(state, key, fault)
              case Ok(i) => r == Ok(state.workloads[i])
              case Err(m) => r == Err(m)
    {
      match ReadWorkload(state, key, fault)
      case Ok(i) => return Ok(state.workloads[i]);
      case Err(m) => return Err(m);
    }

    method UpdateWorkload(w: Workload, fault: Option<string>) returns (err: Option<string>)
      modifies this
      ensures match ReadWorkload(old(state), w.key, fault)
              case Ok(i) => err == None && state == PutWorkload(old(state), i, w)
              case Err(m) => err == Some(m) && state == old(state)
    {
      match ReadWorkload(state, w.key, fault)
      case Ok(i) => state := PutWorkload(state, i, w); return None;
      case Err(m) => return Some(m);
    }

    method GetConfig(key: ObjectKey, fault: Option<string>) returns (r: Result<ReloaderConfig>)
      ensures match ReadConfig(state, key, fault)
              case Ok(i) => r == Ok(state.configs[i])
              case Err(m) => r == Err(m)
    {
      match ReadConfig(state, key, fault)
      case Ok(i) => return Ok(state.configs[i]);
      case Err(m) => return Err(m);
    }

    method UpdateConfigStatus(key: ObjectKey, status: ConfigStatus, fault: Option<string>) returns (err: Option<string>)
      modifies this
      ensures match ReadConfig(old(state), key, fault)
              case Ok(i) => err == None && state == PutConfigStatus(old(state), i, status)
              case Err(m) => err == Some(m) && state == old(state)
    {
      match ReadConfig(state, key, fault)
      case Ok(i) => state := PutConfigStatus(state, i, status); return None;
      case Err(m) => return Some(m);
    }

    method GetResource(kind: string, key: ObjectKey, fault: Option<string>) returns (r: Result<Resource>)
      ensures match ReadResource(state, kind, key, fault)
              case Ok(i) => r == Ok(state.resources[i])
              case Err(m) => r == Err(m)
    {
      match ReadResource(state, kind, key, fault)
      case Ok(i) => return Ok(state.resources[i]);
      case Err(m) => return Err(m);
    }

    method UpdateResource(r: Resource, fault: Option<string>) returns (err: Option<string>)
      modifies this
      ensures match ReadResource(old(state), r.kind, r.key, fault)
              case Ok(i) => err == None && state == PutResource(old(state), i, r)
              case Err(m) => err == Some(m) && state == old(state)
    {
      match ReadResource(state, r.kind, r.key, fault)
      case Ok(i) => state := PutResource(state, i, r); return None;
      case Err(m) => return Some(m);
    }

    method ListPods(namespace: string, matchLabels: map<string, string>) returns (pods: set<ObjectKey>)
      ensures pods == set p | p in state.pods && Selects(p, state.pods[p], namespace, matchLabels)
    {
      pods := set p | p in state.pods && Selects(p, state.pods[p], namespace, matchLabels);
    }

    method DeletePod(pod: ObjectKey, fault: Option<string>) returns (err: Option<string>)
      requires pod in state.pods
      modifies this
      ensures if fault.Some? then err == fault && state == old(state)
              else err == None && state == old(state).(pods := old(state).pods - {pod}, writes := old(state).writes + 1)
    {
      if fault.Some? {
        return fault;
      }
      state := state.(pods := state.pods - {pod}, writes := state.writes + 1);
      return None;
    }
  }
}
