/** internal/pkg/util/helpers.go: annotation keys, defaults, list and key codecs, environment variable names. */
module Helpers {
  import opened Common

  const ANNOTATION_LAST_HASH := "reloader.stakater.com/last-hash"
  const ANNOTATION_AUTO := "reloader.stakater.com/auto"
  const ANNOTATION_SEARCH := "reloader.stakater.com/search"
  const ANNOTATION_MATCH := "reloader.stakater.com/match"
  const ANNOTATION_IGNORE := "reloader.stakater.com/ignore"
  const ANNOTATION_ROLLOUT_STRATEGY := "reloader.stakater.com/rollout-strategy"
  const ANNOTATION_LAST_RELOAD := "reloader.stakater.com/last-reload"
  const ANNOTATION_LAST_RELOADED_FROM := "reloader.stakater.com/last-reloaded-from"
  const ANNOTATION_SECRET_RELOAD := "secret.reloader.stakater.com/reload"
  const ANNOTATION_SECRET_AUTO := "secret.reloader.stakater.com/auto"
  const ANNOTATION_CONFIGMAP_RELOAD := "configmap.reloader.stakater.com/reload"
  const ANNOTATION_CONFIGMAP_AUTO := "configmap.reloader.stakater.com/auto"
  const PAUSE_SUFFIX := ".reloader.stakater.com/pause-period"
  const ANNOTATION_DEPLOYMENT_PAUSE := "deployment" + PAUSE_SUFFIX
  const ANNOTATION_STATEFULSET_PAUSE := "statefulset" + PAUSE_SUFFIX
  const ANNOTATION_DAEMONSET_PAUSE := "daemonset" + PAUSE_SUFFIX

  const ENV_VAR_PREFIX := "STAKATER_"

  const KIND_SECRET := "Secret"
  const KIND_CONFIGMAP := "ConfigMap"
  const KIND_DEPLOYMENT := "Deployment"
  const KIND_STATEFULSET := "StatefulSet"
  const KIND_DAEMONSET := "DaemonSet"

  const ROLLOUT_RESTART := "restart"
  const ROLLOUT_ROLLOUT := "rollout"
  const RELOAD_ENV_VARS := "env-vars"
  const RELOAD_ANNOTATIONS := "annotations"

  /* ---- Defaults ---- */

  function GetDefaultNamespace(targetNamespace: string, defaultNamespace: string): string
  {
    if targetNamespace != "" then targetNamespace else defaultNamespace
  }

  function GetDefaultRolloutStrategy(targetStrategy: string, defaultStrategy: string): string
  {
    if targetStrategy != "" then targetStrategy
    else if defaultStrategy != "" then defaultStrategy
    else ROLLOUT_ROLLOUT
  }

  function GetDefaultReloadStrategy(targetStrategy: string, defaultStrategy: string): string
  {
    if targetStrategy != "" then targetStrategy
    else if defaultStrategy != "" then defaultStrategy
    else RELOAD_ENV_VARS
  }

  /** The first non-empty string of a list; empty when there is none. */
  function FirstNonEmpty(candidates: seq<string>): string
  {
    var i := First(candidates, (s: string) => s != "");
    if i < |candidates| then candidates[i] else ""
  }

  /* ---- Splitting and joining ---- */

  /** strings.Split for a one-character separator. */
  function Split(s: string, sep: char): (parts: seq<string>)
    ensures |parts| >= 1
    ensures forall p :: p in parts ==> sep !in p
  {
    if s == "" then [""]
    else
      var rest := Split(s[1..], sep);
      if s[0] == sep then [""] + rest else [[s[0]] + rest[0]] + rest[1..]
  }

  function Join(parts: seq<string>, sep: char): string
  {
    if parts == [] then "" else if |parts| == 1 then parts[0] else parts[0] + [sep] + Join(parts[1..], sep)
  }

  lemma {:induction false} JoinAfterSplit(s: string, sep: char)
    ensures Join(Split(s, sep), sep) == s
  {
    if s == "" {
    } else {
      JoinAfterSplit(s[1..], sep);
      var rest := Split(s[1..], sep);
      assert Split(s, sep)[1..] == if s[0] == sep then rest else rest[1..];
      assert s == [s[0]] + s[1..];
    }
  }

  lemma {:induction false} SplitAfterJoin(parts: seq<string>, sep: char)
    requires parts != []
    requires forall p :: p in parts ==> sep !in p
    ensures Split(Join(parts, sep), sep) == parts
  {
    if |parts| == 1 {
      SplitUnsplit(parts[0], sep);
    } else {
      SplitAfterJoin(parts[1..], sep);
      SplitCons(parts[0], Join(parts[1..], sep), sep);
    }
  }

  lemma {:induction false} SplitUnsplit(s: string, sep: char)
    requires sep !in s
    ensures Split(s, sep) == [s]
  {
    if s == "" {
    } else {
      SplitUnsplit(s[1..], sep);
      assert s == [s[0]] + s[1..];
    }
  }

  lemma {:induction false} SplitCons(p: string, rest: string, sep: char)
    requires sep !in p
    ensures Split(p + [sep] + rest, sep) == [p] + Split(rest, sep)
  {
    var s := p + [sep] + rest;
    if p == "" {
      assert s[1..] == rest;
    } else {
      SplitCons(p[1..], rest, sep);
      assert s[1..] == p[1..] + [sep] + rest;
      assert [p[0]] + p[1..] == p;
    }
  }

  /* ---- Comma-separated lists ---- */

  /** unicode.IsSpace, which strings.TrimSpace removes at both ends. */
  predicate IsSpace(c: char)
  {
    c == ' ' || '\t' <= c <= '\r' || c == '\U{85}' || c == '\U{A0}' || c == '\U{1680}' ||
    '\U{2000}' <= c <= '\U{200A}' || c == '\U{2028}' || c == '\U{2029}' || c == '\U{202F}' ||
    c == '\U{205F}' || c == '\U{3000}'
  }

  function TrimSpace(s: string): string
  {
    if s == "" then ""
    else if IsSpace(s[0]) then TrimSpace(s[1..])
    else if IsSpace(s[|s| - 1]) then TrimSpace(s[..|s| - 1])
    else s
  }

  predicate Trimmed(s: string)
  {
    s == "" || (!IsSpace(s[0]) && !IsSpace(s[|s| - 1]))
  }

  /** Trimming cuts white space off both ends and nothing else, until no more can be cut. */
  lemma {:induction false} TrimSpaceIsExact(s: string) returns (left: string, right: string)
    ensures s == left + TrimSpace(s) + right
    ensures forall c :: c in left + right ==> IsSpace(c)
    ensures Trimmed(TrimSpace(s))
  {
    left, right := "", "";
    if s != "" && IsSpace(s[0]) {
      left, right := TrimSpaceIsExact(s[1..]);
      left := [s[0]] + left;
    } else if s != "" && IsSpace(s[|s| - 1]) {
      left, right := TrimSpaceIsExact(s[..|s| - 1]);
      right := right + [s[|s| - 1]];
      assert s == s[..|s| - 1] + [s[|s| - 1]];
    }
  }

  /** The trimmed, non-empty fields among the first n parts. */
  function Fields(parts: seq<string>, n: nat): seq<string>
    requires n <= |parts|
  {
    if n == 0 then []
    else
      var trimmed := TrimSpace(parts[n - 1]);
      Fields(parts, n - 1) + (if trimmed != "" then [trimmed] else [])
  }

  function ParseList(input: string): seq<string>
  {
    if input == "" then [] else var parts := Split(input, ','); Fields(parts, |parts|)
  }

  method ParseCommaSeparatedList(input: string) returns (result: seq<string>)
    ensures result == ParseList(input)
  {
    if input == "" {
      return [];
    }
    var parts := Split(input, ',');
    result := [];
    for i := 0 to |parts|
      invariant result == Fields(parts, i)
    {
      var trimmed := TrimSpace(parts[i]);
      if trimmed != "" {
        result := result + [trimmed];
      }
    }
  }

  /** A name that can stand in a comma-separated list. */
  predicate ListName(s: string)
  {
    s != "" && ',' !in s && Trimmed(s)
  }

  lemma {:induction false} FieldsAreListNames(parts: seq<string>, n: nat)
    requires n <= |parts|
    requires forall p :: p in parts ==> ',' !in p
    ensures forall f :: f in Fields(parts, n) ==> ListName(f)
  {
    if n == 0 {
    } else {
      FieldsAreListNames(parts, n - 1);
      var left, right := TrimSpaceIsExact(parts[n - 1]);
      var trimmed := TrimSpace(parts[n - 1]);
      assert ',' !in left + trimmed + right;
    }
  }

  lemma {:induction false} FieldsOfListNames(parts: seq<string>, n: nat)
    requires n <= |parts|
    requires forall p :: p in parts ==> ListName(p)
    ensures Fields(parts, n) == parts[..n]
  {
    if n == 0 {
    } else {
      FieldsOfListNames(parts, n - 1);
      assert ListName(parts[n - 1]);
    }
  }

  /** Every parsed list consists of list names, whatever the input. */
  lemma ParsedNamesAreClean(input: string)
    ensures forall f :: f in ParseList(input) ==> ListName(f)
  {
    if input != "" {
      FieldsAreListNames(Split(input, ','), |Split(input, ',')|);
    }
  }

  /** Joining with commas and parsing gives the names back exactly when they are all list names. */
  lemma ParseAfterJoin(names: seq<string>)
    ensures ParseList(Join(names, ',')) == names <==> forall n :: n in names ==> ListName(n)
  {
    ParsedNamesAreClean(Join(names, ','));
    if names != [] && forall n :: n in names ==> ListName(n) {
      assert ListName(names[0]);
      SplitAfterJoin(names, ',');
      FieldsOfListNames(names, |names|);
    }
  }

  /* ---- Resource keys ---- */

  function MakeResourceKey(namespace: string, kind: string, name: string): string
  {
    namespace + "/" + kind + "/" + name
  }

  function ParseResourceKey(key: string): Result<(string, string, string)>
  {
    var parts := Split(key, '/');
    if |parts| != 3 then Err("invalid resource key format: " + key) else Ok((parts[0], parts[1], parts[2]))
  }

  lemma JoinThree(namespace: string, kind: string, name: string)
    ensures Join([namespace, kind, name], '/') == MakeResourceKey(namespace, kind, name)
  {
    assert [namespace, kind, name][1..] == [kind, name];
    assert [kind, name][1..] == [name];
    assert Join([kind, name], '/') == kind + "/" + name;
    assert namespace + ['/'] + (kind + "/" + name) == MakeResourceKey(namespace, kind, name);
  }

  /** Parsing undoes making exactly when no part contains a slash. */
  lemma ParseAfterMake(namespace: string, kind: string, name: string)
    ensures ParseResourceKey(MakeResourceKey(namespace, kind, name)) == Ok((namespace, kind, name))
            <==> '/' !in namespace && '/' !in kind && '/' !in name
  {
    if '/' !in namespace && '/' !in kind && '/' !in name {
      var parts := [namespace, kind, name];
      JoinThree(namespace, kind, name);
      SplitAfterJoin(parts, '/');
    }
  }

  /** Making undoes parsing on every accepted key. */
  lemma MakeAfterParse(key: string)
    requires ParseResourceKey(key).Ok?
    ensures var (namespace, kind, name) := ParseResourceKey(key).value; MakeResourceKey(namespace, kind, name) == key
  {
    JoinAfterSplit(key, '/');
    var parts := Split(key, '/');
    assert parts == [parts[0], parts[1], parts[2]];
    JoinThree(parts[0], parts[1], parts[2]);
  }

  /** Two resources with slash-free parts never share a key of the status hash map. */
  lemma ResourceKeysAreDistinct(a: (string, string, string), b: (string, string, string))
    requires '/' !in a.0 && '/' !in a.1 && '/' !in a.2
    requires '/' !in b.0 && '/' !in b.1 && '/' !in b.2
    requires MakeResourceKey(a.0, a.1, a.2) == MakeResourceKey(b.0, b.1, b.2)
    ensures a == b
  {
    ParseAfterMake(a.0, a.1, a.2);
    ParseAfterMake(b.0, b.1, b.2);
  }

  /* ---- Environment variable names ---- */

  /** Upper case of one character. Beyond ASCII only dotless i and long s have an ASCII upper case;
      the others stay outside ASCII, which is all that the callers here distinguish. */
  function Upper(c: char): char
  {
    if 'a' <= c <= 'z' then c - 'a' + 'A'
    else if c == '\U{131}' then 'I'
    else if c == '\U{17F}' then 'S'
    else c
  }

  function EnvChar(c: char): char
  {
    var u := Upper(c);
    if 'A' <= u <= 'Z' || '0' <= u <= '9' || u == '_' then u else '_'
  }

  function ToUpper(s: string): string
  {
    seq(|s|, i requires 0 <= i < |s| => Upper(s[i]))
  }

  function ConvertToEnvVarName(name: string): string
  {
    seq(|name|, i requires 0 <= i < |name| => EnvChar(name[i]))
  }

  function GetEnvVarName(resourceKind: string, resourceName: string): string
  {
    ENV_VAR_PREFIX + ConvertToEnvVarName(resourceName) + "_" + ToUpper(resourceKind)
  }

  predicate IsResourceKind(kind: string)
  {
    kind == KIND_SECRET || kind == KIND_CONFIGMAP
  }

  predicate EnvVarAlphabet(c: char)
  {
    'A' <= c <= 'Z' || '0' <= c <= '9' || c == '_'
  }

  /** Every generated name is a valid environment variable name. */
  lemma EnvVarNameIsValid(kind: string, name: string)
    requires IsResourceKind(kind)
    ensures forall c :: c in GetEnvVarName(kind, name) ==> EnvVarAlphabet(c)
    ensures 'A' <= GetEnvVarName(kind, name)[0] <= 'Z'
  {
  }

  lemma UpperKinds()
    ensures ToUpper(KIND_SECRET) == "SECRET"
    ensures ToUpper(KIND_CONFIGMAP) == "CONFIGMAP"
  {
  }

  /** The characters of a Kubernetes object name (an RFC 1123 subdomain). */
  predicate SubdomainChar(c: char)
  {
    'a' <= c <= 'z' || '0' <= c <= '9' || c == '-' || c == '.'
  }

  predicate Subdomain(name: string)
  {
    forall c :: c in name ==> SubdomainChar(c)
  }

  /** The name with its dots read as hyphens. */
  function Undot(name: string): string
  {
    seq(|name|, i requires 0 <= i < |name| => if name[i] == '.' then '-' else name[i])
  }

  /** Two resources share an environment variable exactly when they have the same kind and their
      names differ in nothing but dots against hyphens. */
  lemma EnvVarNamesCollide(kind: string, name: string, kind': string, name': string)
    requires IsResourceKind(kind) && IsResourceKind(kind')
    requires Subdomain(name) && Subdomain(name')
    ensures GetEnvVarName(kind, name) == GetEnvVarName(kind', name') <==> kind == kind' && Undot(name) == Undot(name')
  {
    UpperKinds();
    var a, b := ConvertToEnvVarName(name), ConvertToEnvVarName(name');
    var s, s' := GetEnvVarName(kind, name), GetEnvVarName(kind', name');
    assert s[|s| - 1] == (if kind == KIND_SECRET then 'T' else 'P');
    assert s'[|s'| - 1] == (if kind' == KIND_SECRET then 'T' else 'P');
    if s == s' {
      assert |a| == |b|;
      forall i | 0 <= i < |name| ensures Undot(name)[i] == Undot(name')[i] {
        assert s[|ENV_VAR_PREFIX| + i] == a[i] && s'[|ENV_VAR_PREFIX| + i] == b[i];
        assert name[i] in name && name'[i] in name';
      }
    }
    if kind == kind' && Undot(name) == Undot(name') {
      assert |name| == |name'|;
      forall i | 0 <= i < |name| ensures a[i] == b[i] {
        assert Undot(name)[i] == Undot(name')[i];
      }
      assert a == b;
    }
  }

  /** Among dot-free names the generated variable tells kind and name; the namespace has no part in it. */
  lemma EnvVarNamesAreDistinct(kind: string, name: string, kind': string, name': string)
    requires IsResourceKind(kind) && IsResourceKind(kind')
    requires Subdomain(name) && Subdomain(name') && '.' !in name && '.' !in name'
    requires GetEnvVarName(kind, name) == GetEnvVarName(kind', name')
    ensures kind == kind' && name == name'
  {
    EnvVarNamesCollide(kind, name, kind', name');
    assert Undot(name) == name && Undot(name') == name';
  }

  /** How a name is made: the prefix, each character of the resource's name in upper case if it is a letter, as it is if
      it is a digit and as an underscore otherwise, and the kind. */
  lemma EnvVarNameTells(kind: string, name: string) returns (middle: string)
    requires IsResourceKind(kind) && Subdomain(name)
    ensures GetEnvVarName(kind, name) ==
            "STAKATER_" + middle + "_" + (if kind == "Secret" then "SECRET" else "CONFIGMAP")
    ensures |middle| == |name|
    ensures forall i :: 0 <= i < |name| ==>
              middle[i] == if 'a' <= name[i] <= 'z' then name[i] - 'a' + 'A'
                           else if '0' <= name[i] <= '9' then name[i] else '_'
  {
    UpperKinds();
    middle := ConvertToEnvVarName(name);
    assert forall i :: 0 <= i < |name| ==> name[i] in name;
  }
}
