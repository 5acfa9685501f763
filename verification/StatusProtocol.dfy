/** Two kinds of writers, the status worker and validations of a config, fetch, change and write back the status
    of the same configs, step by step and in any interleaving, while users create, edit and delete configs. */
module StatusProtocol {
  import opened Common
  import opened Kube
  import opened Queue
  import opened Status
  import opened QueueDrain
  import opened Controller

  /** The worker is idle, or has fetched its item's config and not yet written it back. */
  datatype Worker = Idle | Busy(item: Item, base: Versioned)

  /** A committed change of one config's status. */
  datatype Op = Worked(item: Item, now: int) | Validated(plan: Plan, time: nat -> int)

  datatype Fate = Succeeded | GivenUp | Orphaned

  /** The protocol state, and its history: every version of a config ever stored, the keys ever deleted, the committed
      changes of each config since it was created, the target items ever queued, how often each failed and how it
      ended, and the items applied. */
  datatype System = System(
    store: Store,
    queue: Queue,
    worker: Worker,
    validations: map<nat, Versioned>,
    versions: set<Versioned>,
    deleted: set<ObjectKey>,
    log: map<ObjectKey, seq<Op>>,
    born: set<Item>,
    failures: map<Item, nat>,
    fate: map<Item, Fate>,
    applied: seq<Item>)

  const START := System(Store(map[], 0), EMPTY_QUEUE, Idle, map[], {}, {}, map[], {}, map[], map[], [])

  /** What a read through the controller's cache yields. */
  datatype Read = Fails(message: string) | Absent | Sees(base: Versioned)

  /** The cache may lag behind: it shows any version that was once stored, or a deletion that was since undone. */
  predicate MayRead(s: System, key: ObjectKey, read: Read)
  {
    match read
    case Fails(_) => true
    case Absent => key !in s.store.configs || key in s.deleted
    case Sees(base) => base in s.versions && base.config.key == key
  }

  datatype Event =
    | Queued(request: StatusRequest)
    | WorkerFetches(read: Read)
    | WorkerWrites(now: int, fault: Option<string>)
    | BackoffEnds(item: Item)
    | ValidationFetches(id: nat, base: Versioned)
    | ValidationWrites(id: nat, planner: ReloaderConfig -> Plan, time: nat -> int, fault: Option<string>)
    | UserCreates(config: ReloaderConfig)
    | UserEdits(config: ReloaderConfig)
    | UserDeletes(key: ObjectKey)

  /** What a committed change makes of a status. */
  function Perform(x: Platform, s: ConfigStatus, op: Op): ConfigStatus
  {
    match op
    case Worked(item, now) => WithItem(x, s, item, now)
    case Validated(plan, time) => ApplyPlan(s, plan, time)
  }

  /** The same as a value; the protocol does not depend on what the changes are. */
  type Performer = (ConfigStatus, Op) -> ConfigStatus

  function Performing(x: Platform): Performer
  {
    (s: ConfigStatus, op: Op) => Perform(x, s, op)
  }

  function Failures(s: System, item: Item): nat
  {
    if item in s.failures then s.failures[item] else 0
  }

  /** An attempt failed: processNextStatusUpdate retries or gives up. */
  function AfterFailure(s: System, item: Item): System
  {
    s.(queue := Finish(s.queue, item, true),
       worker := Idle,
       failures := s.failures[item := Failures(s, item) + 1],
       fate := if NumRequeues(s.queue, item) < MAX_REQUEUES then s.fate else s.fate[item := GivenUp])
  }

  /** An attempt did not fail: the item was applied, or its config is gone. */
  function Ended(s: System, item: Item, fate: Fate): System
  {
    s.(queue := Finish(s.queue, item, false),
       worker := Idle,
       fate := s.fate[item := fate],
       applied := if fate.Succeeded? then s.applied + [item] else s.applied)
  }

  function LogOf(s: System, key: ObjectKey): seq<Op>
  {
    if key in s.log then s.log[key] else []
  }

  /** The store with a new version of a config. */
  function Stored(store: Store, config: ReloaderConfig): Store
  {
    Store(store.configs[config.key := Versioned(store.revision + 1, config)], store.revision + 1)
  }

  /** A new version of a config is in the store. */
  function Storing(s: System, config: ReloaderConfig, log: seq<Op>): System
  {
    s.(store := Stored(s.store, config),
       versions := s.versions + {Versioned(s.store.revision + 1, config)},
       log := s.log[config.key := log])
  }

  /** Status().Update with a change of the fetched copy; None when it is refused. */
  function Committed(perform: Performer, s: System, base: Versioned, op: Op, fault: Option<string>): Option<System>
  {
    match UpdateStatus(s.store, base, perform(base.config.status, op), fault)
    case Err(_) => None
    case Ok(store) =>
      var key := base.config.key;
      Some(s.(store := store, versions := s.versions + {store.configs[key]}, log := s.log[key := LogOf(s, key) + [op]]))
  }

  function Fetching(s: System, read: Read): System
    requires s.queue.fifo != []
  {
    var item := s.queue.fifo[0];
    var taken := s.(queue := Take(s.queue));
    match read
    case Fails(_) => AfterFailure(taken, item)
    case Absent => Ended(taken, item, Orphaned)
    case Sees(base) => taken.(worker := Busy(item, base))
  }

  function Writing(perform: Performer, s: System, now: int, fault: Option<string>): System
    requires s.worker.Busy?
  {
    var item := s.worker.item;
    match Committed(perform, s, s.worker.base, Worked(item, now), fault)
    case None => AfterFailure(s, item)
    case Some(done) => Ended(done, item, Succeeded)
  }

  /** reconcileReloaderConfig's write; its plan is computed from the copy it fetched. */
  function Validating(perform: Performer, s: System, id: nat, planner: ReloaderConfig -> Plan, time: nat -> int,
                      fault: Option<string>): System
    requires id in s.validations
  {
    var base := s.validations[id];
    var ended := s.(validations := s.validations - {id});
    match Committed(perform, ended, base, Validated(planner(base.config), time), fault)
    case None => ended
    case Some(done) => done
  }

  /** A user writes a config outside the status subresource. */
  function UserWrites(s: System, config: ReloaderConfig, status: ConfigStatus, log: seq<Op>): System
  {
    Storing(s, config.(status := status), log)
  }

  /** The status of a new config is empty, whatever the user sends. */
  function Creating(s: System, config: ReloaderConfig): System
  {
    UserWrites(s, config, EMPTY_STATUS, [])
  }

  /** An edit keeps the stored status. */
  function Editing(s: System, config: ReloaderConfig): System
    requires config.key in s.store.configs
  {
    UserWrites(s, config, s.store.configs[config.key].config.status, LogOf(s, config.key))
  }

  function Deleting(s: System, key: ObjectKey): System
  {
    s.(store := s.store.(configs := s.store.configs - {key}), log := s.log - {key}, deleted := s.deleted + {key})
  }

  function Next(perform: Performer, s: System, e: Event): System
  {
    match e
    case Queued(request) =>
      s.(queue := Enqueue(s.queue, request),
         born := if request.TargetRequest?
                 then s.born + {TargetItem(request.config, s.queue.nextId, request.target, request.errorMsg)}
                 else s.born)
    case WorkerFetches(read) =>
      if s.worker.Idle? && s.queue.fifo != [] && MayRead(s, s.queue.fifo[0].config, read) then Fetching(s, read) else s
    case WorkerWrites(now, fault) => if s.worker.Idle? then s else Writing(perform, s, now, fault)
    case BackoffEnds(item) => s.(queue := Fire(s.queue, item))
    case ValidationFetches(id, base) => if base in s.versions then s.(validations := s.validations[id := base]) else s
    case ValidationWrites(id, planner, time, fault) =>
      if id in s.validations then Validating(perform, s, id, planner, time, fault) else s
    case UserCreates(config) => if config.key in s.store.configs then s else Creating(s, config)
    case UserEdits(config) => if config.key in s.store.configs then Editing(s, config) else s
    case UserDeletes(key) => Deleting(s, key)
  }

  function Run(perform: Performer, s: System, events: seq<Event>): System
  {
    if events == [] then s
    else
      var n := |events| - 1;
      Next(perform, Run(perform, s, events[..n]), events[n])
  }

  /* ---- No update is lost: the stored status is the sequential result of the committed ones ---- */

  function Replay(perform: Performer, log: seq<Op>): ConfigStatus
  {
    if log == [] then EMPTY_STATUS
    else
      var n := |log| - 1;
      Persisted(perform(Replay(perform, log[..n]), log[n]))
  }

  lemma ReplayNext(perform: Performer, log: seq<Op>, op: Op)
    ensures Replay(perform, log + [op]) == Persisted(perform(Replay(perform, log), op))
  {
  }

  const NO_SPEC := ConfigSpec(None, [], "", "", false, [])

  /** Some config with the key of an item. */
  function AnyConfig(item: Item): ReloaderConfig
  {
    ReloaderConfig(item.config, map[], 0, NO_SPEC, EMPTY_STATUS)
  }

  /** A fetched copy is of a version handed out before, and still what is stored if the version is. */
  ghost predicate Faithful(store: Store, base: Versioned)
  {
    base.version <= store.revision &&
    (base.config.key in store.configs && store.configs[base.config.key].version == base.version ==>
       store.configs[base.config.key] == base)
  }

  /** Every stored status is the result of the log of its config. */
  ghost predicate LogsMatch(perform: Performer, store: Store, log: map<ObjectKey, seq<Op>>)
  {
    && log.Keys == store.configs.Keys
    && forall key :: key in store.configs ==>
         store.configs[key].config.key == key && store.configs[key].config.status == Replay(perform, log[key])
  }

  ghost predicate AllFaithful(store: Store, versions: set<Versioned>)
  {
    forall base :: base in versions ==> Faithful(store, base)
  }

  ghost predicate Serial(perform: Performer, s: System)
  {
    && LogsMatch(perform, s.store, s.log)
    && AllFaithful(s.store, s.versions)
    && (s.worker.Busy? ==> s.worker.base in s.versions)
    && (forall id :: id in s.validations ==> s.validations[id] in s.versions)
  }

  lemma StoringKeepsLogs(perform: Performer, store: Store, logs: map<ObjectKey, seq<Op>>, config: ReloaderConfig,
                         log: seq<Op>)
    requires LogsMatch(perform, store, logs) && config.status == Replay(perform, log)
    ensures LogsMatch(perform, Stored(store, config), logs[config.key := log])
  {
  }

  lemma StoringKeepsFaithful(store: Store, versions: set<Versioned>, config: ReloaderConfig)
    requires AllFaithful(store, versions)
    ensures AllFaithful(Stored(store, config), versions + {Versioned(store.revision + 1, config)})
  {
  }

  lemma StoringKeepsSerial(perform: Performer, s: System, config: ReloaderConfig, log: seq<Op>)
    requires Serial(perform, s) && config.status == Replay(perform, log)
    ensures Serial(perform, Storing(s, config, log))
  {
    StoringKeepsLogs(perform, s.store, s.log, config, log);
    StoringKeepsFaithful(s.store, s.versions, config);
  }

  /** The change is in the log; a new version is stored if there is anything to change. */
  function Logged(s: System, config: ReloaderConfig, log: seq<Op>): System
    requires config.key in s.store.configs
  {
    if config == s.store.configs[config.key].config then s.(log := s.log[config.key := log])
    else Storing(s, config, log)
  }

  lemma LoggingKeepsSerial(perform: Performer, s: System, config: ReloaderConfig, log: seq<Op>)
    requires Serial(perform, s) && config.key in s.store.configs && config.status == Replay(perform, log)
    ensures Serial(perform, Logged(s, config, log))
  {
    if config != s.store.configs[config.key].config {
      StoringKeepsSerial(perform, s, config, log);
    }
  }

  /** Only a change of what is stored is committed. */
  lemma CommitIsOnStored(perform: Performer, s: System, base: Versioned, op: Op, fault: Option<string>)
    requires Serial(perform, s) && base in s.versions
    requires Committed(perform, s, base, op, fault).Some?
    ensures var key, status := base.config.key, Persisted(perform(base.config.status, op));
            && key in s.store.configs && key in s.log
            && s.store.configs[key] == base
            && base.config.status == Replay(perform, s.log[key])
            && Committed(perform, s, base, op, fault).value ==
               Logged(s, base.config.(status := status), s.log[key] + [op])
  {
    assert Faithful(s.store, base);
    assert s.versions + {base} == s.versions;
  }

  lemma CommitKeepsSerial(perform: Performer, s: System, base: Versioned, op: Op, fault: Option<string>)
    requires Serial(perform, s) && base in s.versions
    requires Committed(perform, s, base, op, fault).Some?
    ensures Serial(perform, Committed(perform, s, base, op, fault).value)
  {
    var log := s.log[base.config.key];
    CommitIsOnStored(perform, s, base, op, fault);
    ReplayNext(perform, log, op);
    LoggingKeepsSerial(perform, s, base.config.(status := Persisted(perform(base.config.status, op))), log + [op]);
  }

  lemma WritingKeepsSerial(perform: Performer, s: System, now: int, fault: Option<string>)
    requires Serial(perform, s) && s.worker.Busy?
    ensures Serial(perform, Writing(perform, s, now, fault))
  {
    var op := Worked(s.worker.item, now);
    if Committed(perform, s, s.worker.base, op, fault).Some? {
      CommitKeepsSerial(perform, s, s.worker.base, op, fault);
    }
  }

  lemma ValidatingKeepsSerial(perform: Performer, s: System, id: nat, planner: ReloaderConfig -> Plan, time: nat -> int,
                              fault: Option<string>)
    requires Serial(perform, s) && id in s.validations
    ensures Serial(perform, Validating(perform, s, id, planner, time, fault))
  {
    var base, ended := s.validations[id], s.(validations := s.validations - {id});
    var op := Validated(planner(base.config), time);
    if Committed(perform, ended, base, op, fault).Some? {
      CommitKeepsSerial(perform, ended, base, op, fault);
    }
  }

  lemma FetchingKeepsSerial(perform: Performer, s: System, read: Read)
    requires Serial(perform, s) && s.queue.fifo != [] && MayRead(s, s.queue.fifo[0].config, read)
    ensures Serial(perform, Fetching(s, read))
  {
  }

  lemma UserWriteKeepsSerial(perform: Performer, s: System, config: ReloaderConfig, status: ConfigStatus, log: seq<Op>)
    requires Serial(perform, s) && status == Replay(perform, log)
    ensures Serial(perform, UserWrites(s, config, status, log))
  {
    StoringKeepsSerial(perform, s, config.(status := status), log);
  }

  lemma CreatingKeepsSerial(perform: Performer, s: System, config: ReloaderConfig)
    requires Serial(perform, s)
    ensures Serial(perform, Creating(s, config))
  {
    UserWriteKeepsSerial(perform, s, config, EMPTY_STATUS, []);
  }

  lemma ReadingKeepsSerial(perform: Performer, s: System, id: nat, base: Versioned)
    requires Serial(perform, s) && base in s.versions
    ensures Serial(perform, s.(validations := s.validations[id := base]))
  {
  }

  lemma EditingKeepsSerial(perform: Performer, s: System, config: ReloaderConfig)
    requires Serial(perform, s) && config.key in s.store.configs
    ensures Serial(perform, Editing(s, config))
  {
    UserWriteKeepsSerial(perform, s, config, s.store.configs[config.key].config.status, s.log[config.key]);
  }

  lemma DeletingKeepsSerial(perform: Performer, s: System, key: ObjectKey)
    requires Serial(perform, s)
    ensures Serial(perform, Deleting(s, key))
  {
  }

  lemma QueueingKeepsSerial(perform: Performer, s: System, s': System)
    requires Serial(perform, s) && s' == s.(queue := s'.queue, born := s'.born)
    ensures Serial(perform, s')
  {
  }

  lemma UserKeepsSerial(perform: Performer, s: System, e: Event)
    requires Serial(perform, s) && (e.UserCreates? || e.UserEdits? || e.UserDeletes?)
    ensures Serial(perform, Next(perform, s, e))
  {
    match e
    case UserCreates(config) =>
      if config.key !in s.store.configs {
        CreatingKeepsSerial(perform, s, config);
      }
    case UserEdits(config) =>
      if config.key in s.store.configs {
        EditingKeepsSerial(perform, s, config);
      }
    case UserDeletes(key) => DeletingKeepsSerial(perform, s, key);
  }

  lemma ValidationKeepsSerial(perform: Performer, s: System, e: Event)
    requires Serial(perform, s) && (e.ValidationFetches? || e.ValidationWrites?)
    ensures Serial(perform, Next(perform, s, e))
  {
    match e
    case ValidationFetches(id, base) =>
      if base in s.versions {
        ReadingKeepsSerial(perform, s, id, base);
      }
    case ValidationWrites(id, planner, time, fault) =>
      if id in s.validations {
        ValidatingKeepsSerial(perform, s, id, planner, time, fault);
      }
  }

  lemma NextKeepsSerial(perform: Performer, s: System, e: Event)
    requires Serial(perform, s)
    ensures Serial(perform, Next(perform, s, e))
  {
    match e
    case WorkerFetches(read) =>
      if s.worker.Idle? && s.queue.fifo != [] && MayRead(s, s.queue.fifo[0].config, read) {
        FetchingKeepsSerial(perform, s, read);
      }
    case WorkerWrites(now, fault) =>
      if s.worker.Busy? {
        WritingKeepsSerial(perform, s, now, fault);
      }
    case ValidationFetches(_, _) => ValidationKeepsSerial(perform, s, e);
    case ValidationWrites(_, _, _, _) => ValidationKeepsSerial(perform, s, e);
    case Queued(_) => QueueingKeepsSerial(perform, s, Next(perform, s, e));
    case BackoffEnds(_) => QueueingKeepsSerial(perform, s, Next(perform, s, e));
    case _ => UserKeepsSerial(perform, s, e);
  }

  lemma {:induction false} RunKeepsSerial(perform: Performer, events: seq<Event>)
    ensures Serial(perform, Run(perform, START, events))
  {
    if events == [] {
    } else {
      var n := |events| - 1;
      RunKeepsSerial(perform, events[..n]);
      NextKeepsSerial(perform, Run(perform, START, events[..n]), events[n]);
    }
  }

  /** How many config-level items a log contains. */
  function ConfigItems(log: seq<Op>): nat
  {
    if log == [] then 0
    else
      var n := |log| - 1;
      ConfigItems(log[..n]) + (if log[n].Worked? && log[n].item.ConfigItem? then 1 else 0)
  }

  /** How many success items for a target a log contains. */
  function SuccessItems(log: seq<Op>, key: WorkloadKey): nat
  {
    if log == [] then 0
    else
      var n := |log| - 1;
      SuccessItems(log[..n], key) + (if log[n].Worked? && Succeeds(log[n].item, key) then 1 else 0)
  }

  lemma {:induction false} ReplayCounts(x: Platform, log: seq<Op>, key: WorkloadKey)
    ensures Replay(Performing(x), log).reloadCount == ConfigItems(log)
    ensures TargetCount(Replay(Performing(x), log), key) == SuccessItems(log, key)
    ensures UniqueTargets(Replay(Performing(x), log))
  {
    if log == [] {
    } else {
      var n := |log| - 1;
      ReplayCounts(x, log[..n], key);
      var before := Replay(Performing(x), log[..n]);
      match log[n]
      case Worked(item, now) => ItemCountsOnce(x, before, item, now, key);
      case Validated(plan, time) => PersistedEntry(ApplyPlan(before, plan, time), key);
    }
  }

  /** In every interleaving, for every stored config: its status is the result of the committed updates applied one
      after the other, its reload count is the number of config-level items applied to it, each target's count is
      the number of success items applied for that target, and no target has two entries. */
  lemma NoLostUpdates(x: Platform, events: seq<Event>, key: ObjectKey, target: WorkloadKey)
    requires key in Run(Performing(x), START, events).store.configs
    ensures var s := Run(Performing(x), START, events);
            var status := s.store.configs[key].config.status;
            && key in s.log
            && status == Replay(Performing(x), s.log[key])
            && status.reloadCount == ConfigItems(s.log[key])
            && TargetCount(status, target) == SuccessItems(s.log[key], target)
            && UniqueTargets(status)
  {
    RunKeepsSerial(Performing(x), events);
    ReplayCounts(x, Run(Performing(x), START, events).log[key], target);
  }

  /* ---- Every target item is applied once, given up after six failures, or orphaned ---- */

  ghost predicate QueueInStep(s: System)
  {
    WellFormed(s.queue) && s.queue.processing == (match s.worker case Idle => {} case Busy(item, _) => {item})
  }

  function Places(q: Queue, item: Item): nat
  {
    (if item in q.dirty then 1 else 0) + (if item in q.processing then 1 else 0) + (if item in q.delayed then 1 else 0)
  }

  ghost predicate Settled(s: System, item: Item)
  {
    var n := Failures(s, item);
    if item in s.fate then
      Places(s.queue, item) == 0 &&
      (if s.fate[item].GivenUp? then n == 6 else n <= 5) &&
      multiset(s.applied)[item] == (if s.fate[item].Succeeded? then 1 else 0)
    else
      Places(s.queue, item) == 1 && n == NumRequeues(s.queue, item) <= 5 && multiset(s.applied)[item] == 0
  }

  ghost predicate Accounted(s: System)
  {
    && QueueInStep(s)
    && (forall item :: item in s.born ==> item.TargetItem? && item.id < s.queue.nextId && Settled(s, item))
    && (forall item: Item :: item.TargetItem? && item !in s.born ==>
          !Live(s.queue, item) && item !in s.fate && item !in s.failures && item !in s.applied)
  }

  lemma ConfigQueuedIsAccounted(s: System, item: Item)
    requires Accounted(s) && item.ConfigItem?
    ensures Accounted(s.(queue := Add(s.queue, item)))
  {
    AddKeeps(s.queue, item);
  }

  lemma TargetQueuedIsAccounted(s: System, item: Item)
    requires Accounted(s) && item.TargetItem? && item.id == s.queue.nextId
    ensures Accounted(s.(queue := Add(s.queue.(nextId := item.id + 1), item), born := s.born + {item}))
  {
  }

  lemma QueuedIsAccounted(perform: Performer, s: System, request: StatusRequest)
    requires Accounted(s)
    ensures Accounted(Next(perform, s, Queued(request)))
  {
    match request
    case ConfigRequest(config, namespace, kind, name, newHash) =>
      ConfigQueuedIsAccounted(s, ConfigItem(config, namespace, kind, name, newHash));
    case TargetRequest(config, target, errorMsg) =>
      TargetQueuedIsAccounted(s, TargetItem(config, s.queue.nextId, target, errorMsg));
  }

  /** Finishing one item leaves the others where they are. */
  lemma FinishElsewhere(q: Queue, item: Item, failed: bool, other: Item)
    requires other != item
    ensures Places(Finish(q, item, failed), other) == Places(q, other)
    ensures NumRequeues(Finish(q, item, failed), other) == NumRequeues(q, other)
    ensures Live(Finish(q, item, failed), other) == Live(q, other)
  {
  }

  /** The worker holds the item, and the system is accounted for with it. */
  ghost predicate Holding(s: System, item: Item)
  {
    WellFormed(s.queue) && s.queue.processing == {item} &&
    Accounted(s.(worker := Busy(item, Versioned(0, AnyConfig(item)))))
  }

  lemma FailureSettles(s: System, item: Item, other: Item)
    requires Holding(s, item) && other in s.born
    ensures Settled(AfterFailure(s, item), other)
  {
    assert Settled(s, other);
    if other != item {
      FinishElsewhere(s.queue, item, true, other);
    }
  }

  lemma FailureIsAccounted(s: System, item: Item)
    requires Holding(s, item)
    ensures Accounted(AfterFailure(s, item))
  {
    FinishKeeps(s.queue, item, true);
    forall other | other in s.born ensures Settled(AfterFailure(s, item), other) {
      FailureSettles(s, item, other);
    }
    forall other: Item | other.TargetItem? && other !in s.born
      ensures !Live(AfterFailure(s, item).queue, other) && other != item {
      FinishElsewhere(s.queue, item, true, other);
    }
  }

  lemma EndSettles(s: System, item: Item, fate: Fate, other: Item)
    requires Holding(s, item) && other in s.born && fate != GivenUp
    ensures Settled(Ended(s, item, fate), other)
  {
    assert Settled(s, other);
    if other != item {
      FinishElsewhere(s.queue, item, false, other);
    }
  }

  lemma EndIsAccounted(s: System, item: Item, fate: Fate)
    requires Holding(s, item) && fate != GivenUp
    ensures Accounted(Ended(s, item, fate))
  {
    FinishKeeps(s.queue, item, false);
    forall other | other in s.born ensures Settled(Ended(s, item, fate), other) {
      EndSettles(s, item, fate, other);
    }
    forall other: Item | other.TargetItem? && other !in s.born
      ensures !Live(Ended(s, item, fate).queue, other) && other != item {
      FinishElsewhere(s.queue, item, false, other);
    }
  }

  lemma TakenIsAccounted(s: System, base: Versioned)
    requires Accounted(s) && s.worker.Idle? && s.queue.fifo != []
    ensures Accounted(s.(queue := Take(s.queue), worker := Busy(s.queue.fifo[0], base)))
  {
    TakeKeeps(s.queue);
  }

  lemma FireKeepsPlaces(q: Queue, item: Item, other: Item)
    requires other in q.delayed ==> other !in q.dirty
    ensures Places(Fire(q, item), other) == Places(q, other) && Live(Fire(q, item), other) == Live(q, other)
    ensures Fire(q, item).requeues == q.requeues && Fire(q, item).nextId == q.nextId &&
            Fire(q, item).processing == q.processing
  {
  }

  lemma FiringIsAccounted(s: System, item: Item)
    requires Accounted(s)
    ensures Accounted(s.(queue := Fire(s.queue, item)))
  {
    FireKeeps(s.queue, item);
    forall other | other in s.born ensures Settled(s.(queue := Fire(s.queue, item)), other) {
      assert Settled(s, other);
      FireKeepsPlaces(s.queue, item, other);
    }
    forall other: Item | other.TargetItem? && other !in s.born ensures !Live(Fire(s.queue, item), other) {
      FireKeepsPlaces(s.queue, item, other);
    }
  }

  lemma FetchingIsAccounted(s: System, read: Read)
    requires Accounted(s) && s.worker.Idle? && s.queue.fifo != []
    ensures Accounted(Fetching(s, read))
  {
    var item := s.queue.fifo[0];
    TakenIsAccounted(s, Versioned(0, AnyConfig(item)));
    var taken := s.(queue := Take(s.queue));
    match read
    case Fails(_) => FailureIsAccounted(taken, item);
    case Absent => EndIsAccounted(taken, item, Orphaned);
    case Sees(base) => TakenIsAccounted(s, base);
  }

  lemma WritingIsAccounted(perform: Performer, s: System, now: int, fault: Option<string>)
    requires Accounted(s) && s.worker.Busy?
    ensures Accounted(Writing(perform, s, now, fault))
  {
    var item := s.worker.item;
    match Committed(perform, s, s.worker.base, Worked(item, now), fault)
    case None => FailureIsAccounted(s, item);
    case Some(done) => EndIsAccounted(done, item, Succeeded);
  }

  /** Validations and users do not touch the queue or its history. */
  lemma ElsewhereIsAccounted(s: System, s': System)
    requires Accounted(s)
    requires s' == s.(store := s'.store, validations := s'.validations, versions := s'.versions, deleted := s'.deleted,
                      log := s'.log)
    ensures Accounted(s')
  {
  }

  lemma NextIsAccounted(perform: Performer, s: System, e: Event)
    requires Accounted(s)
    ensures Accounted(Next(perform, s, e))
  {
    match e
    case Queued(request) => QueuedIsAccounted(perform, s, request);
    case WorkerFetches(read) =>
      if s.worker.Idle? && s.queue.fifo != [] && MayRead(s, s.queue.fifo[0].config, read) {
        FetchingIsAccounted(s, read);
      }
    case WorkerWrites(now, fault) =>
      if s.worker.Busy? {
        WritingIsAccounted(perform, s, now, fault);
      }
    case BackoffEnds(item) => FiringIsAccounted(s, item);
    case _ => ElsewhereIsAccounted(s, Next(perform, s, e));
  }

  lemma {:induction false} RunIsAccounted(perform: Performer, events: seq<Event>)
    ensures Accounted(Run(perform, START, events))
  {
    if events == [] {
    } else {
      var n := |events| - 1;
      RunIsAccounted(perform, events[..n]);
      NextIsAccounted(perform, Run(perform, START, events[..n]), events[n]);
    }
  }

  /** The worker takes the item and finds its config to be gone: it is not stored, or was once deleted and the cache
      still shows that. */
  ghost predicate FindsGone(s: System, e: Event, item: Item)
  {
    && e == WorkerFetches(Absent) && s.worker.Idle? && s.queue.fifo != [] && s.queue.fifo[0] == item
    && (item.config !in s.store.configs || item.config in s.deleted)
  }

  ghost predicate FoundGone(perform: Performer, events: seq<Event>, n: nat, item: Item)
    requires n < |events|
  {
    FindsGone(Run(perform, START, events[..n]), events[n], item)
  }

  /** Only finding its config gone makes a target item an orphan. */
  lemma OrphanedByFetch(perform: Performer, s: System, e: Event, item: Item)
    requires item.TargetItem? && item in Next(perform, s, e).fate && Next(perform, s, e).fate[item] == Orphaned
    requires item in s.fate ==> s.fate[item] != Orphaned
    ensures FindsGone(s, e, item)
  {
  }

  lemma {:induction false} OrphansAreFoundGone(perform: Performer, events: seq<Event>, item: Item)
    requires item.TargetItem?
    requires item in Run(perform, START, events).fate && Run(perform, START, events).fate[item] == Orphaned
    ensures exists n :: 0 <= n < |events| && FoundGone(perform, events, n, item)
  {
    if events == [] {
      assert false;
    } else {
      var n := |events| - 1;
      var s := Run(perform, START, events[..n]);
      if item in s.fate && s.fate[item] == Orphaned {
        OrphansAreFoundGone(perform, events[..n], item);
        var m :| 0 <= m < n && FoundGone(perform, events[..n], m, item);
        assert events[..n][..m] == events[..m];
        assert FoundGone(perform, events, m, item);
      } else {
        OrphanedByFetch(perform, s, events[n], item);
        assert FoundGone(perform, events, n, item);
      }
    }
  }

  /** At any time of any run, a target item that was queued is either pending in exactly one place with as many
      failures as retries, or it has ended: applied exactly once, given up after exactly six failed attempts, or
      orphaned by a fetch that found its config gone; an item that has ended never comes back. */
  lemma EveryTargetItemEndsOnce(perform: Performer, events: seq<Event>, item: Item)
    requires item in Run(perform, START, events).born
    ensures var s := Run(perform, START, events);
            Settled(s, item) &&
            (item in s.fate && s.fate[item] == Orphaned ==>
             exists n :: 0 <= n < |events| && FoundGone(perform, events, n, item))
  {
    RunIsAccounted(perform, events);
    var s := Run(perform, START, events);
    if item in s.fate && s.fate[item] == Orphaned {
      OrphansAreFoundGone(perform, events, item);
    }
  }

  /** Target items never merge: each request makes an item that was never queued before, at the end of the line. */
  lemma TargetItemsNeverMerge(perform: Performer, events: seq<Event>, request: StatusRequest)
    requires request.TargetRequest?
    ensures var s := Run(perform, START, events);
            var item := TargetItem(request.config, s.queue.nextId, request.target, request.errorMsg);
            var next := Next(perform, s, Queued(request));
            item !in s.born && next.queue.fifo == s.queue.fifo + [item] && next.born == s.born + {item}
  {
    RunIsAccounted(perform, events);
    var s := Run(perform, START, events);
    var item := TargetItem(request.config, s.queue.nextId, request.target, request.errorMsg);
    assert item !in s.born;
  }

  /* ---- The counters count the items ---- */

  predicate IsTargetOp(op: Op)
  {
    op.Worked? && op.item.TargetItem?
  }

  /** The target items whose updates are in a log. */
  ghost function ItemsIn(log: seq<Op>): set<Item>
  {
    set op | op in log && IsTargetOp(op) :: op.item
  }

  ghost predicate DistinctItems(log: seq<Op>)
  {
    forall i, j :: 0 <= i < j < |log| && IsTargetOp(log[i]) && IsTargetOp(log[j]) ==> log[i].item != log[j].item
  }

  lemma ItemsNext(log: seq<Op>, op: Op)
    ensures ItemsIn(log + [op]) == if IsTargetOp(op) then ItemsIn(log) + {op.item} else ItemsIn(log)
    ensures DistinctItems(log) && (IsTargetOp(op) ==> op.item !in ItemsIn(log)) ==> DistinctItems(log + [op])
  {
    forall i | 0 <= i < |log| && IsTargetOp(log[i]) ensures log[i].item in ItemsIn(log) {
      assert log[i] in log;
    }
  }

  ghost function SuccessesIn(log: seq<Op>, target: WorkloadKey): set<Item>
  {
    set item | item in ItemsIn(log) && Succeeds(item, target)
  }

  lemma SuccessesNext(log: seq<Op>, op: Op, target: WorkloadKey)
    ensures SuccessesIn(log + [op], target) ==
            if op.Worked? && Succeeds(op.item, target) then SuccessesIn(log, target) + {op.item}
            else SuccessesIn(log, target)
  {
    ItemsNext(log, op);
  }

  /** The last item of a log without repetition is in none of its prefixes. */
  lemma LastIsNew(log: seq<Op>)
    requires log != [] && DistinctItems(log)
    ensures var n := |log| - 1; IsTargetOp(log[n]) ==> log[n].item !in ItemsIn(log[..n])
  {
  }

  lemma {:induction false} DistinctSuccesses(log: seq<Op>, target: WorkloadKey)
    requires DistinctItems(log)
    ensures SuccessItems(log, target) == |SuccessesIn(log, target)|
  {
    if log == [] {
    } else {
      var n := |log| - 1;
      DistinctSuccesses(log[..n], target);
      assert log == log[..n] + [log[n]];
      SuccessesNext(log[..n], log[n], target);
      LastIsNew(log);
    }
  }

  predicate WasApplied(fate: map<Item, Fate>, item: Item)
  {
    item in fate && fate[item] == Succeeded
  }

  /** A log holds applied items of its own config, each once. */
  ghost predicate LogTraced(fate: map<Item, Fate>, born: set<Item>, key: ObjectKey, log: seq<Op>)
  {
    DistinctItems(log) && forall item :: item in ItemsIn(log) ==>
    item.config == key && item in born && WasApplied(fate, item)
  }

  ghost predicate LogsTraced(s: System)
  {
    forall key :: key in s.log ==> LogTraced(s.fate, s.born, key, s.log[key])
  }

  /** An applied target item is in the log of its config, unless such a config was deleted. */
  ghost predicate AppliedTraced(s: System)
  {
    forall item: Item :: item.TargetItem? && WasApplied(s.fate, item) ==>
      item.config in s.deleted || (item.config in s.log && item in ItemsIn(s.log[item.config]))
  }

  ghost predicate Traced(s: System)
  {
    LogsTraced(s) && AppliedTraced(s) && (s.worker.Busy? ==> s.worker.base.config.key == s.worker.item.config)
  }

  /** The item has not ended, so no log holds it. */
  lemma HeldIsNew(s: System, item: Item)
    requires Accounted(s) && Live(s.queue, item) && item.TargetItem?
    ensures item !in s.fate && item in s.born
  {
  }

  lemma EndKeepsTraced(s: System, s': System, item: Item, fate: Fate)
    requires Traced(s) && (item.TargetItem? ==> item !in s.fate) && fate != Succeeded
    requires s'.log == s.log && s'.born == s.born && s'.deleted == s.deleted
    requires s'.fate == s.fate || s'.fate == s.fate[item := fate]
    requires s'.worker.Busy? ==> s'.worker.base.config.key == s'.worker.item.config
    ensures Traced(s')
  {
  }

  lemma AppliedKeepsTraced(s: System, s': System, item: Item, op: Op)
    requires Traced(s) && op.Worked? && op.item == item && item.config in s.log
    requires item.TargetItem? ==> item !in s.fate && item in s.born
    requires s'.log == s.log[item.config := s.log[item.config] + [op]]
    requires s'.born == s.born && s'.deleted == s.deleted && s'.fate == s.fate[item := Succeeded] && s'.worker.Idle?
    ensures Traced(s')
  {
    var log := s.log[item.config];
    ItemsNext(log, op);
    assert LogTraced(s.fate, s.born, item.config, log);
    assert LogTraced(s'.fate, s'.born, item.config, log + [op]);
  }

  lemma FetchingKeepsTraced(s: System, read: Read)
    requires Traced(s) && Accounted(s) && s.queue.fifo != [] && MayRead(s, s.queue.fifo[0].config, read)
    ensures Traced(Fetching(s, read))
  {
    var item := s.queue.fifo[0];
    if item.TargetItem? {
      assert item in s.queue.dirty;
      HeldIsNew(s, item);
    }
    EndKeepsTraced(s, Fetching(s, read), item, if read.Fails? then GivenUp else Orphaned);
  }

  lemma WritingKeepsTraced(perform: Performer, s: System, now: int, fault: Option<string>)
    requires Traced(s) && Accounted(s) && Serial(perform, s) && s.worker.Busy?
    ensures Traced(Writing(perform, s, now, fault))
  {
    var item, op := s.worker.item, Worked(s.worker.item, now);
    if item.TargetItem? {
      assert item in s.queue.processing;
      HeldIsNew(s, item);
    }
    match Committed(perform, s, s.worker.base, op, fault)
    case None => EndKeepsTraced(s, AfterFailure(s, item), item, GivenUp);
    case Some(done) =>
      CommitIsOnStored(perform, s, s.worker.base, op, fault);
      AppliedKeepsTraced(s, Ended(done, item, Succeeded), item, op);
  }

  /** Putting another log, with the same target items, in the place of a log. */
  lemma RelogKeepsTraced(s: System, s': System, key: ObjectKey, log: seq<Op>)
    requires Traced(s) && LogTraced(s.fate, s.born, key, log)
    requires key in s.log ==> ItemsIn(log) == ItemsIn(s.log[key])
    requires s'.log == s.log[key := log] && s'.born == s.born && s'.deleted == s.deleted && s'.fate == s.fate
    requires s'.worker == s.worker
    ensures Traced(s')
  {
  }

  lemma ValidatingKeepsTraced(perform: Performer, s: System, id: nat, planner: ReloaderConfig -> Plan, time: nat -> int,
                              fault: Option<string>)
    requires Traced(s) && Serial(perform, s) && id in s.validations
    ensures Traced(Validating(perform, s, id, planner, time, fault))
  {
    var base, ended := s.validations[id], s.(validations := s.validations - {id});
    var op := Validated(planner(base.config), time);
    if Committed(perform, ended, base, op, fault).Some? {
      CommitIsOnStored(perform, ended, base, op, fault);
      ItemsNext(s.log[base.config.key], op);
      RelogKeepsTraced(s, Validating(perform, s, id, planner, time, fault), base.config.key,
                       s.log[base.config.key] + [op]);
    }
  }

  lemma UserWriteKeepsTraced(perform: Performer, s: System, config: ReloaderConfig, status: ConfigStatus, log: seq<Op>)
    requires Traced(s) && Serial(perform, s)
    requires log == LogOf(s, config.key)
    ensures Traced(UserWrites(s, config, status, log))
  {
    RelogKeepsTraced(s, UserWrites(s, config, status, log), config.key, log);
  }

  lemma NextKeepsTraced(perform: Performer, s: System, e: Event)
    requires Traced(s) && Accounted(s) && Serial(perform, s)
    ensures Traced(Next(perform, s, e))
  {
    match e
    case WorkerFetches(read) =>
      if s.worker.Idle? && s.queue.fifo != [] && MayRead(s, s.queue.fifo[0].config, read) {
        FetchingKeepsTraced(s, read);
      }
    case WorkerWrites(now, fault) =>
      if s.worker.Busy? {
        WritingKeepsTraced(perform, s, now, fault);
      }
    case ValidationWrites(id, planner, time, fault) =>
      if id in s.validations {
        ValidatingKeepsTraced(perform, s, id, planner, time, fault);
      }
    case UserCreates(config) =>
      if config.key !in s.store.configs {
        UserWriteKeepsTraced(perform, s, config, EMPTY_STATUS, []);
      }
    case UserEdits(config) =>
      if config.key in s.store.configs {
        UserWriteKeepsTraced(perform, s, config, s.store.configs[config.key].config.status, s.log[config.key]);
      }
    case _ =>
  }

  lemma {:induction false} RunKeepsTraced(perform: Performer, events: seq<Event>)
    ensures Traced(Run(perform, START, events))
  {
    if events == [] {
    } else {
      var n := |events| - 1;
      RunKeepsTraced(perform, events[..n]);
      RunIsAccounted(perform, events[..n]);
      RunKeepsSerial(perform, events[..n]);
      NextKeepsTraced(perform, Run(perform, START, events[..n]), events[n]);
    }
  }

  /** From queue to counter: in every interleaving, the stored count of a target is the number of the success items
      for it in the log of its config, each of which was queued, applied exactly once and never given up; and as long
      as no config of that name was deleted, these are all the success items for the target that were ever applied. */
  lemma CountsAreItems(x: Platform, events: seq<Event>, key: ObjectKey, target: WorkloadKey)
    requires key in Run(Performing(x), START, events).store.configs
    ensures var s := Run(Performing(x), START, events);
            var applied := set item | item in s.born && WasApplied(s.fate, item) && item.config == key &&
                Succeeds(item, target);
            && key in s.log
            && TargetCount(s.store.configs[key].config.status, target) == |SuccessesIn(s.log[key], target)|
            && SuccessesIn(s.log[key], target) <= applied
            && (key !in s.deleted ==> SuccessesIn(s.log[key], target) == applied)
            && forall item :: item in applied ==> multiset(s.applied)[item] == 1
  {
    var s := Run(Performing(x), START, events);
    NoLostUpdates(x, events, key, target);
    RunKeepsTraced(Performing(x), events);
    RunIsAccounted(Performing(x), events);
    assert LogTraced(s.fate, s.born, key, s.log[key]);
    DistinctSuccesses(s.log[key], target);
    forall item | item in s.born && WasApplied(s.fate, item) ensures multiset(s.applied)[item] == 1 {
      assert Settled(s, item);
    }
  }

  /* ---- The worker drains ---- */

  /** The event makes the worker or a back-off timer move. */
  predicate Moves(s: System, e: Event)
  {
    match e
    case WorkerFetches(read) => s.worker.Idle? && s.queue.fifo != [] && MayRead(s, s.queue.fifo[0].config, read)
    case WorkerWrites(_, _) => s.worker.Busy?
    case BackoffEnds(item) => item in s.queue.delayed
    case _ => false
  }

  ghost function MovesIn(perform: Performer, s: System, events: seq<Event>): nat
  {
    if events == [] then 0
    else
      var n := |events| - 1;
      MovesIn(perform, s, events[..n]) + (if Moves(Run(perform, s, events[..n]), events[n]) then 1 else 0)
  }

  lemma FetchingWorks(s: System, read: Read)
    requires Accounted(s) && s.worker.Idle? && s.queue.fifo != []
    ensures Work(Fetching(s, read).queue) < Work(s.queue)
  {
    var item := s.queue.fifo[0];
    TakeWorks(s.queue);
    TakeKeeps(s.queue);
    match read
    case Fails(_) => FinishWorks(Take(s.queue), item, true);
    case Absent => FinishWorks(Take(s.queue), item, false);
    case Sees(_) =>
  }

  lemma WritingWorks(perform: Performer, s: System, now: int, fault: Option<string>)
    requires Accounted(s) && s.worker.Busy?
    ensures Work(Writing(perform, s, now, fault).queue) < Work(s.queue)
    ensures Attempts(Writing(perform, s, now, fault).queue) < Attempts(s.queue)
  {
    var item := s.worker.item;
    match Committed(perform, s, s.worker.base, Worked(item, now), fault)
    case None => FinishWorks(s.queue, item, true);
    case Some(_) => FinishWorks(s.queue, item, false);
  }

  lemma MoveWorks(perform: Performer, s: System, e: Event)
    requires Accounted(s) && !e.Queued?
    ensures Work(Next(perform, s, e).queue) + (if Moves(s, e) then 1 else 0) <= Work(s.queue)
  {
    match e
    case WorkerFetches(read) =>
      if Moves(s, e) {
        FetchingWorks(s, read);
      }
    case WorkerWrites(now, fault) =>
      if Moves(s, e) {
        WritingWorks(perform, s, now, fault);
      }
    case BackoffEnds(item) =>
      if Moves(s, e) {
        FireWorks(s.queue, item);
      }
    case _ =>
  }

  lemma {:induction false} MovesAreBounded(perform: Performer, s: System, events: seq<Event>)
    requires Accounted(s)
    requires forall e :: e in events ==> !e.Queued?
    ensures Accounted(Run(perform, s, events))
    ensures MovesIn(perform, s, events) + Work(Run(perform, s, events).queue) <= Work(s.queue)
  {
    if events == [] {
    } else {
      var n := |events| - 1;
      assert forall e :: e in events[..n] ==> e in events;
      MovesAreBounded(perform, s, events[..n]);
      assert events[n] in events;
      NextIsAccounted(perform, Run(perform, s, events[..n]), events[n]);
      MoveWorks(perform, Run(perform, s, events[..n]), events[n]);
    }
  }

  /** As long as anything is pending, the worker or a timer can move. */
  lemma PendingMoves(s: System) returns (e: Event)
    requires Accounted(s) && Pending(s.queue) > 0
    ensures !e.Queued? && Moves(s, e)
  {
    if s.worker.Busy? {
      e := WorkerWrites(0, None);
    } else if s.queue.fifo != [] {
      e := WorkerFetches(Fails(""));
    } else {
      assert forall item :: item in s.queue.dirty ==> item in s.queue.fifo;
      assert s.queue.dirty == {};
      var item :| item in s.queue.delayed;
      e := BackoffEnds(item);
    }
  }

  /** Without new requests the worker drains: whatever else happens, and whichever attempts fail, it and its timers
      move at most `Work` times, and once they cannot move nothing is pending and every target item has ended. */
  lemma WorkerDrains(perform: Performer, before: seq<Event>, events: seq<Event>)
    requires forall e :: e in events ==> !e.Queued?
    ensures var s := Run(perform, START, before);
            var s' := Run(perform, s, events);
            && MovesIn(perform, s, events) <= Work(s.queue)
            && ((forall e :: !Moves(s', e)) ==> Pending(s'.queue) == 0 && forall item :: item in s'.born ==>
                item in s'.fate)
  {
    var s := Run(perform, START, before);
    RunIsAccounted(perform, before);
    MovesAreBounded(perform, s, events);
    var s' := Run(perform, s, events);
    AttemptsLeft(s'.queue);
    if Pending(s'.queue) > 0 {
      var e := PendingMoves(s');
      assert Moves(s', e);
    } else {
      assert s'.queue.dirty == {} && s'.queue.processing == {} && s'.queue.delayed == {};
    }
  }

  /** An up-to-date read of the cache. */
  function ReadNow(s: System, key: ObjectKey, fault: Option<string>): Read
  {
    match Fetch(s.store, key, fault)
    case Failed(m) => Fails(m)
    case Missing => Absent
    case Copy(base) => Sees(base)
  }

  /** What the two protocol steps of one pass leave: what the worker's method leaves. */
  ghost predicate PassLeaves(s: System, attempt: Attempt, after: System)
    requires s.queue.fifo != []
  {
    && after.store == (if attempt.Applied? then attempt.store else s.store)
    && after.queue == Finish(Take(s.queue), s.queue.fifo[0], attempt.Refused?)
    && after.worker == Idle
  }

  lemma SeenPassIsTwoSteps(x: Platform, s: System, base: Versioned, now: int, fault: Option<string>)
    requires s.worker.Idle? && s.queue.fifo != [] && s.queue.fifo[0].config == base.config.key
    ensures PassLeaves(s, Write(x, s.store, s.queue.fifo[0], base, now, fault),
                       Writing(Performing(x), Fetching(s, Sees(base)), now, fault))
  {
  }

  lemma UnseenPassIsTwoSteps(s: System, read: Read)
    requires s.worker.Idle? && s.queue.fifo != [] && !read.Sees?
    ensures PassLeaves(s, if read.Fails? then Refused(read.message) else Discarded, Fetching(s, read))
  {
  }

  /** Undisturbed and reading what is stored, one pass of the worker is its two protocol steps. */
  lemma WorkerPassIsTwoSteps(x: Platform, s: System, now: int, fetchFault: Option<string>, writeFault: Option<string>)
    requires s.worker.Idle? && s.queue.fifo != []
    requires forall key :: key in s.store.configs ==>
             s.store.configs[key] in s.versions && s.store.configs[key].config.key == key
    ensures var item := s.queue.fifo[0];
            var fetched := Next(Performing(x), s, WorkerFetches(ReadNow(s, item.config, fetchFault)));
            PassLeaves(s, AttemptItem(x, s.store, item, now, fetchFault, writeFault),
                       Next(Performing(x), fetched, WorkerWrites(now, writeFault)))
  {
    var read := ReadNow(s, s.queue.fifo[0].config, fetchFault);
    match read
    case Sees(base) => SeenPassIsTwoSteps(x, s, base, now, writeFault);
    case _ => UnseenPassIsTwoSteps(s, read);
  }

  ghost function PlannerOf(ctx: Context, c: Cluster): ReloaderConfig -> Plan
  {
    config => PlanOf(ctx, c, config)
  }

  /** A validation of the stored version stores what it makes of it, unless the call fails, and no other config. */
  lemma ValidationCommits(perform: Performer, s: System, id: nat, planner: ReloaderConfig -> Plan, time: nat -> int,
                          fault: Option<string>)
    requires id in s.validations
    requires s.validations[id].config.key in s.store.configs &&
             s.store.configs[s.validations[id].config.key] == s.validations[id]
    ensures var config := s.validations[id].config;
            var status := perform(config.status, Validated(planner(config), time));
            var after := Validating(perform, s, id, planner, time, fault);
            if fault.Some? then after.store == s.store
            else
              && config.key in after.store.configs
              && after.store.configs[config.key].config == config.(status := Persisted(status))
              && after.store.configs - {config.key} == s.store.configs - {config.key}
  {
  }

  lemma ConfigPassLeaves(ctx: Context, c: Cluster, i: nat)
    requires i < |c.configs| && FindConfig(c, c.configs[i].key) == i
    ensures var config := c.configs[i];
            var pass := ConfigPass(ctx, c, config);
            var status := Persisted(ApplyPlan(config.status, PlanOf(ctx, c, config), Readings(ctx)));
            if ctx.Fault(WriteStatus).Some? then pass.cluster == c && pass.err == ctx.Fault(WriteStatus)
            else pass.cluster.configs == c.configs[i := config.(status := status)] && pass.err == None
  {
  }

  /** Undisturbed, one validation of a config, as reconcileReloaderConfig does it, is its two protocol steps. */
  lemma ValidationPassIsTwoSteps(ctx: Context, c: Cluster, s: System, id: nat, i: nat)
    requires i < |c.configs| && FindConfig(c, c.configs[i].key) == i
    requires var key := c.configs[i].key;
             key in s.store.configs && s.store.configs[key] in s.versions && s.store.configs[key].config == c.configs[i]
    ensures var perform, config := Performing(ctx.platform), c.configs[i];
            var pass := ConfigPass(ctx, c, config);
            var fetched := Next(perform, s, ValidationFetches(id, s.store.configs[config.key]));
            var after := Next(perform, fetched, ValidationWrites(id, PlannerOf(ctx, c), Readings(ctx),
                                                                 ctx.Fault(WriteStatus)));
            && (pass.err.Some? ==> pass.cluster == c && after.store == s.store)
            && (pass.err == None ==>
                  pass.cluster.configs == c.configs[i := after.store.configs[config.key].config] &&
                  after.store.configs - {config.key} == s.store.configs - {config.key})
  {
    ConfigPassLeaves(ctx, c, i);
    var config, perform := c.configs[i], Performing(ctx.platform);
    var fetched := s.(validations := s.validations[id := s.store.configs[config.key]]);
    assert perform(config.status, Validated(PlannerOf(ctx, c)(config), Readings(ctx))) ==
           ApplyPlan(config.status, PlanOf(ctx, c, config), Readings(ctx));
    ValidationCommits(perform, fetched, id, PlannerOf(ctx, c), Readings(ctx), ctx.Fault(WriteStatus));
  }
}
