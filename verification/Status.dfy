/** internal/controller/reconciler_status.go: one worker applies queued updates to the status of configs,
    each by fetching the config, changing its status and writing it back under its resource version. */
module Status {
  import opened Common
  import opened Helpers
  import opened Kube
  import opened Queue

  /* ---- What an item does to a status ---- */

  function WithHash(s: ConfigStatus, hashKey: string, newHash: string, now: int): ConfigStatus
  {
    s.(hashes := if newHash == "" then s.hashes - {hashKey} else s.hashes[hashKey := newHash],
       reloadCount := s.reloadCount + 1,
       lastReloadTime := Some(now))
  }

  function TargetPosition(targets: seq<TargetStatus>, key: WorkloadKey): nat
  {
    First(targets, (t: TargetStatus) => t.key == key)
  }

  function PauseAfter(x: Platform, pausePeriod: string, now: int, otherwise: Option<int>): Option<int>
  {
    if pausePeriod == "" then otherwise
    else match x.parseDuration(pausePeriod) case None => otherwise case Some(d) => Some(now + d)
  }

  function Tried(x: Platform, t: TargetStatus, target: Target, errorMsg: string, now: int): TargetStatus
  {
    if errorMsg != "" then t.(lastError := errorMsg)
    else t.(lastError := "",
            reloadCount := t.reloadCount + 1,
            lastReloadTime := Some(now),
            pausedUntil := PauseAfter(x, target.pausePeriod, now, t.pausedUntil))
  }

  function WithTarget(x: Platform, s: ConfigStatus, target: Target, errorMsg: string, now: int): ConfigStatus
  {
    var i := TargetPosition(s.targets, target.key);
    if i < |s.targets| then s.(targets := s.targets[i := Tried(x, s.targets[i], target, errorMsg, now)])
    else s.(targets := s.targets + [Tried(x, TargetStatus(target.key, None, 0, None, ""), target, errorMsg, now)])
  }

  function WithItem(x: Platform, s: ConfigStatus, item: Item, now: int): ConfigStatus
  {
    match item
    case ConfigItem(_, namespace, kind, name, newHash) =>
        WithHash(s, MakeResourceKey(namespace, kind, name), newHash, now)
    case TargetItem(_, _, target, errorMsg) => WithTarget(x, s, target, errorMsg, now)
  }

  /* ---- Configs under optimistic concurrency ---- */

  datatype Versioned = Versioned(version: nat, config: ReloaderConfig)

  datatype Store = Store(configs: map<ObjectKey, Versioned>, revision: nat)

  const CONFLICT := "the object has been modified"

  /** Status().Update: refused unless the caller's copy is the stored version; a write that changes nothing is accepted
      and keeps the version. */
  function UpdateStatus(store: Store, base: Versioned, status: ConfigStatus, fault: Option<string>): Result<Store>
  {
    var key := base.config.key;
    if fault.Some? then Err(fault.value)
    else if key !in store.configs then Err("not found")
    else if store.configs[key].version != base.version then Err(CONFLICT)
    else
      var revision := store.revision + 1;
      var stored := store.configs[key].config.(status := Persisted(status));
      if stored == store.configs[key].config then Ok(store)
      else Ok(Store(store.configs[key := Versioned(revision, stored)], revision))
  }

  class ConfigStore {
    var configs: map<ObjectKey, Versioned>
    var revision: nat

    constructor ()
      ensures Value() == Store(map[], 0)
    {
      configs, revision := map[], 0;
    }

    function Value(): Store
      reads this
    {
      Store(configs, revision)
    }

    method Update(base: Versioned, status: ConfigStatus, fault: Option<string>) returns (err: Option<string>)
      modifies this
      ensures match UpdateStatus(old(Value()), base, status, fault)
              case Ok(store) => err == None && Value() == store
              case Err(m) => err == Some(m) && Value() == old(Value())
    {
      match UpdateStatus(Value(), base, status, fault)
      case Ok(store) => configs, revision := store.configs, store.revision; return None;
      case Err(m) => return Some(m);
    }
  }

  /* ---- The worker ---- */

  /** What fetching the item's config yields. */
  datatype Fetched = Failed(message: string) | Missing | Copy(base: Versioned)

  function Fetch(store: Store, key: ObjectKey, fault: Option<string>): Fetched
  {
    if fault.Some? then Failed(fault.value)
    else if key in store.configs then Copy(store.configs[key])
    else Missing
  }

  /** How one attempt at an item ends. */
  datatype Attempt = Applied(store: Store) | Discarded | Refused(message: string)

  function Write(x: Platform, store: Store, item: Item, base: Versioned, now: int, fault: Option<string>): Attempt
  {
    match UpdateStatus(store, base, WithItem(x, base.config.status, item, now), fault)
    case Ok(store') => Applied(store')
    case Err(m) => Refused(m)
  }

  function AttemptItem(x: Platform, store: Store, item: Item, now: int,
                       fetchFault: Option<string>, writeFault: Option<string>): Attempt
  {
    match Fetch(store, item.config, fetchFault)
    case Failed(m) => Refused(m)
    case Missing => Discarded
    case Copy(base) => Write(x, store, item, base, now, writeFault)
  }

  /** The queue after an attempt: forgotten, or retried until it has failed six times. */
  function Finish(q: Queue, item: Item, failed: bool): Queue
  {
    Done(if failed && NumRequeues(q, item) < MAX_REQUEUES then AddRateLimited(q, item) else Forget(q, item), item)
  }

  class StatusWorker {
    const platform: Platform
    const store: ConfigStore
    const statusQueue: WorkQueue

    constructor (platform: Platform, store: ConfigStore, statusQueue: WorkQueue)
      ensures this.platform == platform && this.store == store && this.statusQueue == statusQueue
    {
      this.platform, this.store, this.statusQueue := platform, store, statusQueue;
    }

    method UpdateReloaderConfigStatusDirect(base: Versioned, namespace: string, kind: string, name: string,
                                            newHash: string,
                                            now: int, fault: Option<string>)
      returns (err: Option<string>)
      modifies store
      ensures match UpdateStatus(old(store.Value()), base,
                                 WithHash(base.config.status, MakeResourceKey(namespace, kind, name), newHash, now),
                                 fault)
              case Ok(s) => err == None && store.Value() == s
              case Err(m) => err == Some(m) && store.Value() == old(store.Value())
    {
      var hashes := base.config.status.hashes;
      var hashKey := MakeResourceKey(namespace, kind, name);
      if newHash == "" {
        hashes := hashes - {hashKey};
      } else {
        hashes := hashes[hashKey := newHash];
      }
      var reloadCount := base.config.status.reloadCount + 1;
      err := store.Update(base, base.config.status.(hashes := hashes, reloadCount := reloadCount,
                                                    lastReloadTime := Some(now)), fault);
    }

    method UpdateTargetStatusDirect(base: Versioned, target: Target, errorMsg: string, now: int, fault: Option<string>)
      returns (err: Option<string>)
      modifies store
      ensures match UpdateStatus(old(store.Value()), base,
                                 WithTarget(platform, base.config.status, target, errorMsg, now), fault)
              case Ok(s) => err == None && store.Value() == s
              case Err(m) => err == Some(m) && store.Value() == old(store.Value())
    {
      var targets := base.config.status.targets;
      var at := |targets|;
      for i := 0 to |targets|
        invariant at == |targets|
        invariant forall j :: 0 <= j < i ==> targets[j].key != target.key
      {
        if targets[i].key == target.key {
          at := i;
          break;
        }
      }
      if at == |targets| {
        targets := targets + [TargetStatus(target.key, None, 0, None, "")];
      }
      var t := targets[at];
      if errorMsg != "" {
        t := t.(lastError := errorMsg);
      } else {
        t := t.(lastError := "", reloadCount := t.reloadCount + 1, lastReloadTime := Some(now));
        if target.pausePeriod != "" {
          var duration := platform.parseDuration(target.pausePeriod);
          if duration.Some? {
            t := t.(pausedUntil := Some(now + duration.value));
          }
        }
      }
      targets := targets[at := t];
      ghost var was := base.config.status.targets;
      assert at == |was| ==> targets == was + [t];
      err := store.Update(base, base.config.status.(targets := targets), fault);
    }

    method ProcessStatusUpdate(item: Item, now: int, fetchFault: Option<string>, writeFault: Option<string>)
      returns (err: Option<string>)
      modifies store
      ensures match AttemptItem(platform, old(store.Value()), item, now, fetchFault, writeFault)
              case Applied(s) => err == None && store.Value() == s
              case Discarded => err == None && store.Value() == old(store.Value())
              case Refused(m) => err == Some(m) && store.Value() == old(store.Value())
    {
      if fetchFault.Some? {
        return fetchFault;
      }
      if item.config !in store.configs {
        return None;
      }
      var base := store.configs[item.config];
      match item
      case ConfigItem(_, namespace, kind, name, newHash) =>
        err := UpdateReloaderConfigStatusDirect(base, namespace, kind, name, newHash, now, writeFault);
      case TargetItem(_, _, target, errorMsg) =>
        err := UpdateTargetStatusDirect(base, target, errorMsg, now, writeFault);
    }

    method ProcessNextStatusUpdate(now: int, fetchFault: Option<string>, writeFault: Option<string>)
      requires statusQueue.fifo != []
      modifies store, statusQueue
      ensures var item := old(statusQueue.fifo)[0];
              var attempt := AttemptItem(platform, old(store.Value()), item, now, fetchFault, writeFault);
              && store.Value() == (if attempt.Applied? then attempt.store else old(store.Value()))
              && statusQueue.Value() == Finish(Take(old(statusQueue.Value())), item, attempt.Refused?)
    {
      var item := statusQueue.GetItem();
      var err := ProcessStatusUpdate(item, now, fetchFault, writeFault);
      if err.Some? {
        if statusQueue.NumRequeuesOf(item) < MAX_REQUEUES {
          statusQueue.AddItemRateLimited(item);
        } else {
          statusQueue.ForgetItem(item);
        }
      } else {
        statusQueue.ForgetItem(item);
      }
      statusQueue.DoneItem(item);
    }
  }

  /* ---- What items leave in a status ---- */

  function Entry(s: ConfigStatus, key: WorkloadKey): Option<TargetStatus>
  {
    var i := TargetPosition(s.targets, key);
    if i < |s.targets| then Some(s.targets[i]) else None
  }

  /** How often the status says a target was reloaded. */
  function TargetCount(s: ConfigStatus, key: WorkloadKey): nat
  {
    match Entry(s, key) case None => 0 case Some(t) => t.reloadCount
  }

  function PausedUntil(s: ConfigStatus, key: WorkloadKey): Option<int>
  {
    match Entry(s, key) case None => None case Some(t) => t.pausedUntil
  }

  ghost predicate UniqueTargets(s: ConfigStatus)
  {
    forall i, j :: 0 <= i < j < |s.targets| ==> s.targets[i].key != s.targets[j].key
  }

  predicate Succeeds(item: Item, key: WorkloadKey)
  {
    item.TargetItem? && item.target.key == key && item.errorMsg == ""
  }

  function PutTarget(targets: seq<TargetStatus>, t: TargetStatus): seq<TargetStatus>
  {
    var i := TargetPosition(targets, t.key);
    if i < |targets| then targets[i := t] else targets + [t]
  }

  lemma PutTargetPosition(targets: seq<TargetStatus>, t: TargetStatus, key: WorkloadKey)
    ensures var after := PutTarget(targets, t);
            var p := TargetPosition(targets, key);
            TargetPosition(after, key) == (if p < |targets| || key == t.key then p else |after|) &&
            (key != t.key && p < |targets| ==> after[p] == targets[p])
    ensures (forall i, j :: 0 <= i < j < |targets| ==> targets[i].key != targets[j].key) ==>
              forall i, j :: 0 <= i < j < |PutTarget(targets, t)| ==>
                  PutTarget(targets, t)[i].key != PutTarget(targets, t)[j].key
  {
    var after := PutTarget(targets, t);
    var p, q := TargetPosition(targets, key), TargetPosition(after, key);
    assert forall k :: 0 <= k < |targets| ==> after[k].key == targets[k].key;
    if p < |targets| || key == t.key {
      assert after[p].key == key;
    }
  }

  lemma TriedEntry(x: Platform, s: ConfigStatus, target: Target, errorMsg: string, now: int, key: WorkloadKey)
    ensures Entry(WithTarget(x, s, target, errorMsg, now), key) ==
            if key != target.key then Entry(s, key)
            else Some(Tried(x, match Entry(s, key) case None => TargetStatus(key, None, 0, None, "") case Some(t) => t,
                            target, errorMsg, now))
    ensures UniqueTargets(s) ==> UniqueTargets(WithTarget(x, s, target, errorMsg, now))
  {
    var was := match Entry(s, target.key) case None => TargetStatus(target.key, None, 0, None, "") case Some(t) => t;
    var t := Tried(x, was, target, errorMsg, now);
    assert t.key == target.key;
    assert WithTarget(x, s, target, errorMsg, now).targets == PutTarget(s.targets, t);
    PutTargetPosition(s.targets, t, key);
  }

  lemma PersistedEntry(s: ConfigStatus, key: WorkloadKey)
    ensures match Entry(s, key)
            case None => Entry(Persisted(s), key) == None
            case Some(t) => Entry(Persisted(s), key) ==
                            Some(t.(lastReloadTime := TruncateOption(t.lastReloadTime),
                                    pausedUntil := TruncateOption(t.pausedUntil)))
    ensures UniqueTargets(s) ==> UniqueTargets(Persisted(s))
  {
    var targets := Persisted(s).targets;
    var i, j := TargetPosition(s.targets, key), TargetPosition(targets, key);
    assert forall k :: 0 <= k < |s.targets| ==> targets[k].key == s.targets[k].key;
    if i < |s.targets| {
      assert targets[i].key == key;
      assert j == i;
    }
  }

  /** One item counts once where it belongs and nowhere else, keeps one entry for each target, and moves the
      end of a pause only for its own target. */
  lemma ItemCountsOnce(x: Platform, s: ConfigStatus, item: Item, now: int, key: WorkloadKey)
    ensures var s' := Persisted(WithItem(x, s, item, now));
            && s'.reloadCount == s.reloadCount + (if item.ConfigItem? then 1 else 0)
            && TargetCount(s', key) == TargetCount(s, key) + (if Succeeds(item, key) then 1 else 0)
            && (UniqueTargets(s) ==> UniqueTargets(s'))
            && PausedUntil(s', key) == TruncateOption(if Succeeds(item, key)
                                                      then PauseAfter(x, item.target.pausePeriod, now,
                                                                      PausedUntil(s, key))
                                                      else PausedUntil(s, key))
  {
    PersistedEntry(WithItem(x, s, item, now), key);
    match item
    case ConfigItem(_, _, _, _, _) =>
    case TargetItem(_, _, target, errorMsg) => TriedEntry(x, s, target, errorMsg, now, key);
  }

  /** What else an item leaves in a stored status: a target item records its error, or its success and the time of it,
      in its own target's entry only; a config-level item records the time and touches no target. */
  lemma ItemRecordsOutcome(x: Platform, s: ConfigStatus, item: Item, now: int, key: WorkloadKey)
    requires Persisted(s) == s
    ensures var s' := Persisted(WithItem(x, s, item, now));
            if item.ConfigItem? then s'.lastReloadTime == Some(Truncate(now)) && Entry(s', key) == Entry(s, key)
            else
              s'.lastReloadTime == s.lastReloadTime &&
              if key != item.target.key then Entry(s', key) == Entry(s, key)
              else
                var was := match Entry(s, key) case None => None case Some(t) => t.lastReloadTime;
                Entry(s', key).Some? && Entry(s', key).value.lastError == item.errorMsg &&
                Entry(s', key).value.lastReloadTime == if item.errorMsg == "" then Some(Truncate(now)) else was
  {
    PersistedEntry(s, key);
    PersistedEntry(WithItem(x, s, item, now), key);
    match item
    case ConfigItem(_, _, _, _, _) =>
    case TargetItem(_, _, target, errorMsg) => TriedEntry(x, s, target, errorMsg, now, key);
  }

  /** The recorded hash of a resource, by its namespace, kind and name. */
  function RecordedHash(s: ConfigStatus, r: (string, string, string)): Option<string>
  {
    FindEntry(s.hashes, MakeResourceKey(r.0, r.1, r.2))
  }

  predicate SlashFree(r: (string, string, string))
  {
    '/' !in r.0 && '/' !in r.1 && '/' !in r.2
  }

  /** A config-level item records its hash for its own resource, or removes the record when the hash is empty, and
      leaves the record of every other resource alone; a target item touches none. */
  lemma ItemRecordsHash(x: Platform, s: ConfigStatus, item: Item, now: int, r: (string, string, string))
    requires SlashFree(r) && (item.ConfigItem? ==> SlashFree((item.namespace, item.kind, item.name)))
    ensures RecordedHash(Persisted(WithItem(x, s, item, now)), r) ==
            if item.ConfigItem? && r == (item.namespace, item.kind, item.name)
            then if item.newHash == "" then None else Some(item.newHash)
            else RecordedHash(s, r)
  {
    if item.ConfigItem? {
      var own := (item.namespace, item.kind, item.name);
      if MakeResourceKey(r.0, r.1, r.2) == MakeResourceKey(own.0, own.1, own.2) {
        ResourceKeysAreDistinct(r, own);
      }
    }
  }

  /* ---- What one attempt comes to ---- */

  /** Undisturbed, an item whose config is stored is applied to it and to no other config. */
  lemma UndisturbedIsApplied(x: Platform, store: Store, item: Item, now: int)
    requires item.config in store.configs && store.configs[item.config].config.key == item.config
    ensures var attempt := AttemptItem(x, store, item, now, None, None);
            && attempt.Applied?
            && item.config in attempt.store.configs
            && attempt.store.configs - {item.config} == store.configs - {item.config}
            && attempt.store.configs[item.config].config ==
               store.configs[item.config].config.(
                 status := Persisted(WithItem(x, store.configs[item.config].config.status, item, now)))
  {
  }

  /** A failing fetch or write leads to a retry, and a missing config to none. */
  lemma DisturbedIsRefused(x: Platform, store: Store, item: Item, now: int, fetch: Option<string>,
                           write: Option<string>)
    ensures var attempt := AttemptItem(x, store, item, now, fetch, write);
            && (fetch.Some? ==> attempt == Refused(fetch.value))
            && (fetch == None && item.config !in store.configs ==> attempt == Discarded)
            && (fetch == None && item.config in store.configs && write.Some? ==> attempt == Refused(write.value))
  {
  }

  /** The end of a pause is moved by success items with a readable period only. */
  lemma PauseMovesExactly(x: Platform, s: ConfigStatus, item: Item, now: int, key: WorkloadKey)
    requires Persisted(s) == s
    ensures var after := PausedUntil(Persisted(WithItem(x, s, item, now)), key);
            if Succeeds(item, key) && item.target.pausePeriod != "" &&
               x.parseDuration(item.target.pausePeriod).Some?
            then after == Some(Truncate(now + x.parseDuration(item.target.pausePeriod).value))
            else after == PausedUntil(s, key)
  {
    ItemCountsOnce(x, s, item, now, key);
    PersistedEntry(s, key);
  }
}
