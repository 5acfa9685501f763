/** internal/pkg/workload/updater.go, the strategies: how a reload rewrites a pod template. */
module Template {
  import opened Common
  import opened Helpers
  import opened Kube

  /** One application of a reload or delete strategy to a template. */
  datatype Rewrite =
    | ReloadEnv(kind: string, name: string, hash: string)
    | ReloadAnnotation(timestamp: string, source: string)
    | DeleteEnv(kind: string, name: string, timestamp: string)
    | DeleteAnnotation(timestamp: string)

  const NO_CONTAINERS := "no containers found in pod template"

  function EnvPosition(env: seq<EnvVar>, name: string): nat
  {
    First(env, (e: EnvVar) => e.name == name)
  }

  function PutEnv(env: seq<EnvVar>, name: string, value: string): seq<EnvVar>
  {
    var i := EnvPosition(env, name);
    if i < |env| then env[i := env[i].(value := value)] else env + [EnvVar(name, value, None)]
  }

  /** The value of the first entry with this name. */
  function LookupEnv(env: seq<EnvVar>, name: string): Option<string>
  {
    var i := EnvPosition(env, name);
    if i < |env| then Some(env[i].value) else None
  }

  function FirstEnv(t: PodTemplate): seq<EnvVar>
  {
    if t.spec.containers == [] then [] else t.spec.containers[0].env
  }

  function WithFirstEnv(t: PodTemplate, env: seq<EnvVar>): PodTemplate
    requires t.spec.containers != []
  {
    t.(spec := t.spec.(containers := t.spec.containers[0 := t.spec.containers[0].(env := env)]))
  }

  function Apply(t: PodTemplate, r: Rewrite): Result<PodTemplate>
  {
    match r
    case ReloadEnv(kind, name, hash) =>
      if t.spec.containers == [] then Err(NO_CONTAINERS)
      else Ok(WithFirstEnv(t, PutEnv(FirstEnv(t), GetEnvVarName(kind, name), hash)))
    case ReloadAnnotation(timestamp, source) =>
      Ok(t.(annotations := t.annotations[ANNOTATION_LAST_RELOAD := timestamp][ANNOTATION_LAST_RELOADED_FROM := source]))
    case DeleteEnv(kind, name, timestamp) =>
      if t.spec.containers == [] then Err(NO_CONTAINERS)
      else Ok(WithFirstEnv(t, PutEnv(FirstEnv(t), GetEnvVarName(kind, name), "deleted-" + timestamp))
              .(annotations := t.annotations - {ANNOTATION_LAST_RELOADED_FROM}))
    case DeleteAnnotation(timestamp) =>
      Ok(t.(annotations := t.annotations[ANNOTATION_LAST_RELOAD := timestamp] - {ANNOTATION_LAST_RELOADED_FROM}))
  }

  /** A pod template in memory, changed in place by the strategies. */
  class PodTemplateSpec {
    var annotations: map<string, string>
    var containers: seq<Container>
    const initContainers: seq<Container>
    const volumes: seq<Volume>

    constructor (t: PodTemplate)
      ensures Value() == t
    {
      annotations, containers := t.annotations, t.spec.containers;
      initContainers, volumes := t.spec.initContainers, t.spec.volumes;
    }

    function Value(): PodTemplate
      reads this
    {
      PodTemplate(annotations, PodSpec(containers, initContainers, volumes))
    }

    /** Find the variable in the first container and set its value, or append it. */
    method PutFirstEnv(name: string, value: string)
      requires containers != []
      modifies this`containers
      ensures Value() == WithFirstEnv(old(Value()), PutEnv(old(containers[0].env), name, value))
    {
      var container := containers[0];
      var found := false;
      for i := 0 to |container.env|
        invariant !found && container == containers[0]
        invariant forall j :: 0 <= j < i ==> container.env[j].name != name
      {
        if container.env[i].name == name {
          container := container.(env := container.env[i := container.env[i].(value := value)]);
          found := true;
          break;
        }
      }
      if !found {
        container := container.(env := container.env + [EnvVar(name, value, None)]);
      }
      containers := containers[0 := container];
    }

    method ApplyEnvVarsStrategy(kind: string, name: string, hash: string) returns (err: Option<string>)
      modifies this
      ensures match Apply(old(Value()), ReloadEnv(kind, name, hash))
              case Ok(t) => err == None && Value() == t
              case Err(m) => err == Some(m) && Value() == old(Value())
    {
      if |containers| == 0 {
        return Some(NO_CONTAINERS);
      }
      PutFirstEnv(GetEnvVarName(kind, name), hash);
      return None;
    }

    method ApplyAnnotationsStrategy(timestamp: string, source: string)
      modifies this`annotations
      ensures Apply(old(Value()), ReloadAnnotation(timestamp, source)) == Ok(Value())
    {
      annotations := annotations[ANNOTATION_LAST_RELOAD := timestamp];
      annotations := annotations[ANNOTATION_LAST_RELOADED_FROM := source];
    }

    method ApplyDeleteEnvVarsStrategy(kind: string, name: string, timestamp: string) returns (err: Option<string>)
      modifies this
      ensures match Apply(old(Value()), DeleteEnv(kind, name, timestamp))
              case Ok(t) => err == None && Value() == t
              case Err(m) => err == Some(m) && Value() == old(Value())
    {
      if |containers| == 0 {
        return Some(NO_CONTAINERS);
      }
      PutFirstEnv(GetEnvVarName(kind, name), "deleted-" + timestamp);
      annotations := annotations - {ANNOTATION_LAST_RELOADED_FROM};
      return None;
    }

    method ApplyDeleteAnnotationsStrategy(timestamp: string)
      modifies this`annotations
      ensures Apply(old(Value()), DeleteAnnotation(timestamp)) == Ok(Value())
    {
      annotations := annotations[ANNOTATION_LAST_RELOAD := timestamp];
      annotations := annotations - {ANNOTATION_LAST_RELOADED_FROM};
    }
  }

  /* ---- The environment list behaves like a map ---- */

  lemma PutThenLookup(env: seq<EnvVar>, name: string, value: string, other: string)
    ensures LookupEnv(PutEnv(env, name, value), other) == if other == name then Some(value) else LookupEnv(env, other)
    ensures if LookupEnv(env, name).None? then PutEnv(env, name, value) == env + [EnvVar(name, value, None)]
            else |PutEnv(env, name, value)| == |env|
    ensures forall i :: 0 <= i < |env| ==>
                          PutEnv(env, name, value)[i].name == env[i].name &&
                          PutEnv(env, name, value)[i].valueFrom == env[i].valueFrom &&
                          (env[i].name != name ==> PutEnv(env, name, value)[i] == env[i])
  {
    var after := PutEnv(env, name, value);
    var i, j, k := EnvPosition(env, name), EnvPosition(env, other), EnvPosition(after, other);
    assert forall n :: 0 <= n < |env| ==> after[n].name == env[n].name;
    if j < |env| {
      assert after[j].name == other;
    } else if other == name {
      assert after[|env|].name == other;
    }
  }

  /** The variable and value a rewrite puts into the first container. */
  function Assignment(r: Rewrite): Option<(string, string)>
  {
    match r
    case ReloadEnv(kind, name, hash) => Some((GetEnvVarName(kind, name), hash))
    case DeleteEnv(kind, name, timestamp) => Some((GetEnvVarName(kind, name), "deleted-" + timestamp))
    case _ => None
  }

  /** The plain map that the rewrites describe: the last value assigned to each generated name. */
  function Assigned(rewrites: seq<Rewrite>): map<string, string>
  {
    if rewrites == [] then map[]
    else
      var n := |rewrites| - 1;
      match Assignment(rewrites[n])
      case None => Assigned(rewrites[..n])
      case Some((name, value)) => Assigned(rewrites[..n])[name := value]
  }

  /** The template after a sequence of rewrites; one that fails leaves it alone. */
  function ApplyAll(t: PodTemplate, rewrites: seq<Rewrite>): PodTemplate
  {
    if rewrites == [] then t
    else
      var n := |rewrites| - 1;
      var before := ApplyAll(t, rewrites[..n]);
      match Apply(before, rewrites[n])
      case Ok(after) => after
      case Err(_) => before
  }

  ghost function NamesIn(env: seq<EnvVar>): set<string>
  {
    set e | e in env :: e.name
  }

  /** Looking a name up gives the value in the map, or what the list had before. */
  ghost predicate LooksUp(env: seq<EnvVar>, env': seq<EnvVar>, written: map<string, string>)
  {
    forall name :: LookupEnv(env', name) == if name in written then Some(written[name]) else LookupEnv(env, name)
  }

  /** Old entries keep position, name and reference, and their value unless their name is in the map. */
  ghost predicate KeepsEntries(env: seq<EnvVar>, env': seq<EnvVar>, written: map<string, string>)
  {
    |env| <= |env'| &&
    forall i :: 0 <= i < |env| ==>
                  env'[i].name == env[i].name && env'[i].valueFrom == env[i].valueFrom &&
                  (env[i].name !in written ==> env'[i] == env[i])
  }

  /** The entries from position size on are plain values with distinct names, in keys and not in names. */
  ghost predicate FreshEntries(size: nat, names: set<string>, env': seq<EnvVar>, keys: set<string>)
  {
    && (forall i :: size <= i < |env'| ==> env'[i].name in keys - names && env'[i].valueFrom == None)
    && (forall i, j :: size <= i < j < |env'| ==> env'[i].name != env'[j].name)
  }

  /** New entries are plain values, one for each name of the map that was not in the list. */
  ghost predicate AppendsOnce(size: nat, names: set<string>, env': seq<EnvVar>, written: map<string, string>)
  {
    |env'| == size + |written.Keys - names| && FreshEntries(size, names, env', written.Keys)
  }

  lemma NamesAreFound(env: seq<EnvVar>, name: string)
    ensures name in NamesIn(env) <==> LookupEnv(env, name).Some?
  {
  }

  lemma PutKeepsLookup(env: seq<EnvVar>, env': seq<EnvVar>, written: map<string, string>, name: string, value: string)
    requires LooksUp(env, env', written)
    ensures LooksUp(env, PutEnv(env', name, value), written[name := value])
  {
    forall other ensures LookupEnv(PutEnv(env', name, value), other) ==
                         if other in written[name := value] then Some(written[name := value][other])
                         else LookupEnv(env, other) {
      PutThenLookup(env', name, value, other);
    }
  }

  lemma OneMoreName(keys: set<string>, names: set<string>, name: string)
    ensures |keys + {name} - names| == |keys - names| + (if name in keys || name in names then 0 else 1)
  {
    if name in keys || name in names {
      assert keys + {name} - names == keys - names;
    } else {
      assert keys + {name} - names == (keys - names) + {name};
    }
  }

  lemma AppendedIsFresh(size: nat, names: set<string>, env: seq<EnvVar>, keys: set<string>, e: EnvVar)
    requires FreshEntries(size, names, env, keys)
    requires e.name !in keys && e.name !in names && e.valueFrom == None
    ensures FreshEntries(size, names, env + [e], keys + {e.name})
  {
  }

  lemma AppendsOnceNext(size: nat, names: set<string>, env: seq<EnvVar>, after: seq<EnvVar>,
                        written: map<string, string>, name: string, value: string)
    requires AppendsOnce(size, names, env, written)
    requires if name in written || name in names then |after| == |env| else after == env + [EnvVar(name, value, None)]
    requires forall i :: 0 <= i < |env| ==> after[i].name == env[i].name && after[i].valueFrom == env[i].valueFrom
    ensures AppendsOnce(size, names, after, written[name := value])
  {
    assert written[name := value].Keys == written.Keys + {name};
    OneMoreName(written.Keys, names, name);
    if name !in written && name !in names {
      AppendedIsFresh(size, names, env, written.Keys, EnvVar(name, value, None));
    }
  }

  /** The first container's list after a sequence of rewrites. */
  function PutAll(env: seq<EnvVar>, rewrites: seq<Rewrite>): seq<EnvVar>
  {
    if rewrites == [] then env
    else
      var n := |rewrites| - 1;
      match Assignment(rewrites[n])
      case None => PutAll(env, rewrites[..n])
      case Some((name, value)) => PutEnv(PutAll(env, rewrites[..n]), name, value)
  }

  lemma {:induction false} PutAllRefinesMap(env: seq<EnvVar>, rewrites: seq<Rewrite>)
    ensures LooksUp(env, PutAll(env, rewrites), Assigned(rewrites))
    ensures KeepsEntries(env, PutAll(env, rewrites), Assigned(rewrites))
    ensures AppendsOnce(|env|, NamesIn(env), PutAll(env, rewrites), Assigned(rewrites))
  {
    if rewrites == [] {
      assert Assigned(rewrites).Keys - NamesIn(env) == {};
    } else {
      var n := |rewrites| - 1;
      PutAllRefinesMap(env, rewrites[..n]);
      var env', written := PutAll(env, rewrites[..n]), Assigned(rewrites[..n]);
      match Assignment(rewrites[n])
      case None =>
      case Some((name, value)) =>
        PutKeepsLookup(env, env', written, name, value);
        PutThenLookup(env', name, value, name);
        NamesAreFound(env, name);
        assert LookupEnv(env', name) == if name in written then Some(written[name]) else LookupEnv(env, name);
        AppendsOnceNext(|env|, NamesIn(env), env', PutEnv(env', name, value), written, name, value);
    }
  }

  const OWNED_ANNOTATIONS := {ANNOTATION_LAST_RELOAD, ANNOTATION_LAST_RELOADED_FROM}

  /** A rewrite touches the first container's variables and the two owned annotations, nothing else. */
  lemma ApplyTouchesLittle(t: PodTemplate, r: Rewrite)
    requires t.spec.containers != []
    ensures Apply(t, r).Ok?
    ensures var t' := Apply(t, r).value;
            t'.spec == WithFirstEnv(t, FirstEnv(t')).spec &&
            t'.annotations - OWNED_ANNOTATIONS == t.annotations - OWNED_ANNOTATIONS &&
            FirstEnv(t') == match Assignment(r)
                            case None => FirstEnv(t)
                            case Some((name, value)) => PutEnv(FirstEnv(t), name, value)
  {
  }

  lemma {:induction false} ApplyAllTouchesLittle(t: PodTemplate, rewrites: seq<Rewrite>)
    requires t.spec.containers != []
    ensures var t' := ApplyAll(t, rewrites);
            t'.spec == WithFirstEnv(t, FirstEnv(t')).spec &&
            t'.annotations - OWNED_ANNOTATIONS == t.annotations - OWNED_ANNOTATIONS &&
            FirstEnv(t') == PutAll(FirstEnv(t), rewrites)
  {
    if rewrites == [] {
    } else {
      var n := |rewrites| - 1;
      ApplyAllTouchesLittle(t, rewrites[..n]);
      ApplyTouchesLittle(ApplyAll(t, rewrites[..n]), rewrites[n]);
    }
  }

  /** All but the first container's variables and the annotations is as it was. */
  ghost predicate SameOutsideFirstEnv(t: PodTemplate, t': PodTemplate)
  {
    && |t'.spec.containers| == |t.spec.containers| > 0
    && t'.spec.containers[1..] == t.spec.containers[1..]
    && t'.spec.containers[0].name == t.spec.containers[0].name
    && t'.spec.containers[0].envFrom == t.spec.containers[0].envFrom
    && t'.spec.initContainers == t.spec.initContainers
    && t'.spec.volumes == t.spec.volumes
  }

  /** For any sequence of reloads and deletions on a template with containers: entries that were there keep
      position, name and reference, and their value unless the name is generated; looking up a generated
      name gives the last value written; each generated name is appended at most once; nothing else in the
      pod spec changes, and no annotation but the two the operator owns. */
  lemma RewritesRefineMap(t: PodTemplate, rewrites: seq<Rewrite>)
    requires t.spec.containers != []
    ensures var t' := ApplyAll(t, rewrites);
            var env := FirstEnv(t); var env' := FirstEnv(t'); var written := Assigned(rewrites);
            LooksUp(env, env', written) && KeepsEntries(env, env', written) &&
            AppendsOnce(|env|, NamesIn(env), env', written) &&
            SameOutsideFirstEnv(t, t') &&
            t'.annotations - OWNED_ANNOTATIONS == t.annotations - OWNED_ANNOTATIONS
  {
    ApplyAllTouchesLittle(t, rewrites);
    PutAllRefinesMap(FirstEnv(t), rewrites);
  }
}
