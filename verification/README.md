# Reloader operator: verified model

Reloader is a Kubernetes operator. It watches Secrets and ConfigMaps, and when the data of one changes it restarts the
Deployments, StatefulSets and DaemonSets that use it: by writing a hash into an environment variable of the pod
template, by annotating the template, or by deleting pods. What to restart comes from ReloaderConfig objects and from
annotations on workloads. Restarts can be rate limited by pause periods, and their history is kept in the status of
ReloaderConfigs by a background worker behind a rate-limited queue.

This project models that controller in Dafny and proves what it guarantees over whole runs. Code that changes state is
written as methods on classes (`ApiServer`, `PodTemplateSpec`, `ConditionList`, `WorkQueue`, `StatusWorker`,
`StatusBuilder`), each proved equal to a function of the state before. The theorems are about those functions, over
every run and every pattern of failing API calls.

`dafny verify dfyconfig.toml` checks everything.

## Main results

1. **Status protocol** (`Status`, `Queue`, `QueueDrain`, `StatusProtocol`, `ItemFates`). The worker and any number of
   validations fetch, change and write back the same configs in any interleaving, reading a cache that may be stale by
   any number of versions, while users create, edit and delete configs. No committed update is lost: every stored status
   is the result of its committed updates one after the other, and its counters are exact, down to the queued items. No
   request is dropped: every target item is pending in one place, or ended once, applied, given up after exactly six
   failures, or orphaned; and every config-level update is live until an attempt that began after it was requested ends
   in one of these ways. Without new items the worker drains, with an explicit bound.
2. **Reloads** (`Updater`, `Reload`, `Events`, `Rollouts`, `Pauses`, `Quiescence`, `Accounting`, `Deletions`). Execution
   accounts for every target, and every reload of a CRD target ends as exactly one item of the status protocol. Which
   targets are attempted, which reloads succeed, and what counts as a deletion is stated exactly. Reconciling a
   resource changes the template of a workload that it rolls out by environment variables at most once plus once for each
   write of its data, however often a reconcile is retried. The bound is for each resource by itself, and needs that no
   other reconciled resource both shares the variable and handles the workload; resources whose names differ in more than
   dots against hyphens never share it. Which reloads can be repeated without effect is stated exactly, for every path,
   strategy and trigger. Annotated workloads are reloaded at a bounded rate; a CRD target stays paused until the recorded
   end. One pass in which no call fails settles a resource, and then nothing happens until its data changes.
3. **Template rewriting** (`Template`). Any sequence of rewrites makes the environment list behave like a map and
   leaves what the user wrote alone.
4. **Discovery** (`PodReferences`, `Finder`, `Discovery`, `Fixpoint`). The search loops equal declarative relations, and
   the controller's own writes never change what it discovers.
5. **Validation** (`Conditions`, `Controller`). Validating a config is idempotent up to transition times, and its
   conditions and hashes are exact.
6. **Codecs** (`Hash`, `Helpers`). The digest input is canonical; lists, keys and variable names round-trip exactly on
   stated sets of inputs.

## Where the code does less than its comments say

Each of these is a proved statement about the code as it is.

- The digest input is not injective. Among data with the keys that Secrets and ConfigMaps can have, other data shares
  it if and only if there are two entries or more, or the value of the single entry holds a `;`, then a greater key, then
  a `:` (`Hash.SharedAmongDataKeys`; a single URL is not ambiguous). For arbitrary maps the condition is two or more `:`
  in the input (`Hash.SharedExactly`). It reads back exactly when no key holds `:` and no value holds `;`
  (`Hash.DecodeAfterEncode`).
- Deleting a resource is said to remove the variable or to write the hash of empty data
  (internal/controller/reconciler_reload.go:211-213, internal/controller/reconciler_events.go:268-272). The code writes
  `deleted-` and the time (internal/pkg/workload/updater.go:441-458); see `Updater.RewriteLeaves`.
- A missing watched Secret is said to leave Degraded set (internal/controller/reloaderconfig_controller.go:302-303).
  It is reset whenever all targets exist (lines 271-277); see `Controller.ValidationOutcome`. All that is left to see is
  a transition time that moves with every validation (`Controller.MissingResourceMovesTime`).
- "No unnecessary restarts" on repetition (internal/controller/reloaderconfig_controller.go:122-123) depends on how the
  workload is reloaded. After a failed hash write the reload is repeated, and `Rollouts.RepeatExactly` says when that
  leaves every template and pod alone: on the rollout path if and only if the strategy is env-vars and the resource was
  changed rather than deleted, or both attempts format to the same time; on the restart path if and only if the workload
  has no pods. `RestartExample.RestartRepeats` is a cluster in which a target with the default reload strategy and
  rollout strategy `restart` loses its pod in a reconcile that fails to store the hash, and again in the retry.
- With reload-on-create, a resource without data is treated as new at every reconcile
  (internal/controller/reloaderconfig_controller.go:152-156): `Quiescence.QuiescentExactly` gives the exact condition.
- A successful reload of an annotated workload starts a pause exactly when it is on the rollout path and its time stamp
  can be written (`Pauses.StampsExactly`): the restart path returns before the stamp is written
  (internal/pkg/workload/updater.go:62-65), and a failure to write it is only logged (lines 92-100). A stamp that is
  already there pauses a workload on either path (`Pauses.AnnotatedPauseIsExact`).
- A Secret or ConfigMap that shares its key with a ReloaderConfig, and a ConfigMap that shares its key with a Secret, is
  never handled (internal/controller/reloaderconfig_controller.go:135-191): `Quiescence.EarlierKindHides` and, as an
  if-and-only-if, `Quiescence.DispatchExactly`.
- Names that differ only in dots against hyphens share an environment variable (`Helpers.EnvVarNamesCollide`, exact).

## How the system is modelled

- A `Cluster` holds configs, resources, workloads, pods and a counter of accepted writes. Lists keep a stable order.
- `Context` is what surrounds one reconcile: `Platform` (SHA-256, time formatting and parsing, duration parsing, the
  JSON of the reload source, the clock), and `Faults`, which says for every API call of the pass whether it fails and
  with what text. A failing call has no effect. Theorems hold for all faults unless they say otherwise.
- `Platform.Lawful` asks that digests have 64 characters, that a formatted time parses to its whole second (RFC 3339,
  section 5.6), and that the clock never runs back. SHA-256 is not assumed injective.
- `StatusProtocol` models fetch and write as separate steps under resource versions, with stale reads; a status write
  that changes nothing is accepted and keeps the version, as the API server does. Elsewhere a
  reconcile runs as one step, and a get followed by an update is atomic: a lost race there is a failing write.
- Stored times lose their fraction of a second on the way through the API server (`Kube.Persisted`).
- Condition types of a config are unique to begin with, as the `listType=map` marker of the CRD demands
  (api/v1alpha1/reloaderconfig_types.go:162-167).
- Go's nil maps and slices are read as empty ones. Map iteration order is arbitrary.
- Loops over CRD and annotated targets in executeReloads and executeDeleteReloads are the same but for the trigger, so
  they are one method with the trigger as a parameter; likewise the two initializeWatched loops with the kind.

## Model

| member | source | states |
|---|---|---|
| StatusProtocol.NoLostUpdates | internal/controller/reconciler_status.go:92-183 | in every interleaving of worker, validations and users, with stale reads: a stored status equals the replay of its committed updates, ReloadCount is the number of config-level items applied, each target's count the number of its success items, and no target has two entries |
| StatusProtocol.RunKeepsSerial | internal/controller/reconciler_status.go:92-138 | every step keeps the serialization invariant: stored status is the replay of the log, and a fetched copy whose version is current is what is stored |
| StatusProtocol.CommitIsOnStored | internal/controller/reconciler_status.go:137-182 | a write that is not refused changes exactly the version that was stored; a stale copy never overwrites |
| StatusProtocol.ReplayCounts | internal/controller/reconciler_status.go:131-164 | replaying any log of worker and validation updates counts config-level items and success items exactly |
| StatusProtocol.CountsAreItems | internal/controller/reconciler_status.go:92-183 | from queue to counter: the stored count of a target is the number of success items for it in its config's log, each queued, applied exactly once and never given up; while no config of that name was deleted, these are all such items ever applied |
| Accounting.ReloadsAreCounted | internal/controller/reconciler_reload.go:60-280 | run the status protocol with the reports of any executions, queued in any order and interleaved with anything: the reloads of a CRD target are the items waiting, applied, given up and orphaned, and while no config of that name was deleted the stored count is the number of applied ones |
| Accounting.ExecutionCount | internal/controller/reconciler_reload.go:95-206 | an execution reports as many successes of a target as it has reloads of it |
| Accounting.RequestsBecomeItems | internal/controller/reconciler_status.go:263-283 | every queued success request becomes one item of its own |
| StatusProtocol.EveryTargetItemEndsOnce | internal/controller/reconciler_status.go:60-114 | at any time of any run a queued target item is pending in exactly one place with as many failures as retries, or has ended: applied exactly once, given up after exactly six failures, or orphaned at a step that fetched it and found its config absent or once deleted |
| StatusProtocol.TargetItemsNeverMerge | internal/controller/reconciler_status.go:263-283 | each target request makes an item never queued before and puts it at the end of the line |
| ItemFates.ConfigItemsEnd | internal/controller/reconciler_status.go:54-114 | a config-level update requested at any step of any run is never dropped: it is live, that is waiting, being worked on or backing off, or an attempt that began after the request has applied it to the stored status, has failed for good after five retries, or has found its config gone |
| ItemFates.DrainedHasEnded | internal/controller/reconciler_status.go:54-114 | once nothing is pending, every config-level update ever requested has ended in one of these three ways |
| ItemFates.ConfigItemsAreQueued | internal/controller/reconciler_status.go:242-259 | a config-level request makes its item one to be done, puts it at the end of the line if and only if it was neither to be done nor being worked on, and changes nothing else |
| ItemFates.RequestsAreQueued | internal/controller/reconciler_status.go:234-283 | what the handlers do to the queue is what the protocol does when their requests arrive one after the other |
| ItemFates.PassIsQueued | internal/controller/reconciler_status.go:191-260 | after a pass every config-level update and removal it asked for is there to be done |
| ItemFates.LiveIsLostByEnd | internal/controller/reconciler_status.go:60-114 | one step ends an item only by applying it, giving it up, or finding its config gone |
| StatusProtocol.WorkerDrains | internal/controller/reconciler_status.go:54-89 | without new items the worker and its timers move at most `Work` times whatever fails, and when they cannot move nothing is pending and every target item has ended |
| StatusProtocol.MovesAreBounded | internal/controller/reconciler_status.go:54-89 | along any such run, moves made plus work left never exceed the work at the start |
| StatusProtocol.PendingMoves | internal/controller/reconciler_status.go:54-58 | as long as anything is pending, the worker or a back-off timer can move |
| StatusProtocol.WorkerPassIsTwoSteps | internal/controller/reconciler_status.go:60-114 | the worker's method, undisturbed, is the fetch step followed by the write step of the protocol |
| StatusProtocol.ValidationPassIsTwoSteps | internal/controller/reloaderconfig_controller.go:239-292 | a validation as reconcileReloaderConfig does it, undisturbed, is the fetch step followed by the write step of the protocol |
| QueueDrain.FinishWorks | internal/controller/reconciler_status.go:69-88 | every processed item, whether it succeeds, is retried or is given up, strictly decreases six times the pending items less the retries made |
| QueueDrain.AttemptsLeft | internal/controller/reconciler_status.go:69-88 | that measure is never below the number of pending items |
| QueueDrain.FinishKeeps | internal/controller/reconciler_status.go:60-89 | the queue stays well-formed: waiting items are in line once, retry counters belong to live items and never exceed five |
| Status.StatusWorker.ProcessNextStatusUpdate | internal/controller/reconciler_status.go:60-89 | takes the first item, attempts it, and retries, gives up or forgets it; a refused write leaves the store alone |
| Status.StatusWorker.ProcessStatusUpdate | internal/controller/reconciler_status.go:92-114 | fetch error, missing config (dropped without error), or one status update of the right type |
| Status.StatusWorker.UpdateReloaderConfigStatusDirect | internal/controller/reconciler_status.go:117-138 | sets or removes the hash, counts and stamps, or leaves the store alone when refused |
| Status.StatusWorker.UpdateTargetStatusDirect | internal/controller/reconciler_status.go:141-183 | finds or appends the target's entry and records error or success and pause |
| Status.ItemCountsOnce | internal/controller/reconciler_status.go:117-183 | an item counts once where it belongs and nowhere else, keeps one entry for each target, and moves only its own target's pause, to now plus the period in whole seconds |
| Status.ItemRecordsOutcome | internal/controller/reconciler_status.go:131-164 | an item records its error or success time in its own target's entry only; a config-level item touches no target |
| Status.ItemRecordsHash | internal/controller/reconciler_status.go:122-130 | a config-level item sets or removes the hash of its own resource and leaves every other resource's record alone |
| Status.UndisturbedIsApplied | internal/controller/reconciler_status.go:92-183 | when no call fails, an item is applied to the stored status of its config and to no other config |
| Status.DisturbedIsRefused | internal/controller/reconciler_status.go:92-114 | a failing fetch or write is an error, a missing config is none |
| Status.PauseMovesExactly | internal/controller/reconciler_status.go:166-179 | the end of a pause moves if and only if a success item for the target has a period that parses, and then to now plus the period in whole seconds |
| Kube.PersistedExactly | api/v1alpha1/reloaderconfig_types.go:162-214 | a stored status is the one written, with its times in whole seconds and nothing else changed |
| Queue.EnqueueInTurn | internal/controller/reconciler_status.go:242-282 | queueing two lists of requests one after the other is queueing their concatenation |
| Rollouts.RetriesDoNotRollOut | internal/controller/reconciler_events.go:51-95 | over any run of reconciles with any failures and retries, status updates and edits that leave the variable alone, in which the workload is rolled out by environment variables and no reconcile is of another resource that shares the variable and handles the workload, reconciling the resource changes the workload's template at most once plus once for each edit that changes the data; not even that once if it was up to date |
| Rollouts.ValueFollowsData | internal/controller/reconciler_events.go:51-95 | without any premise on strategies, the same bound for changes of the variable |
| Rollouts.RolloutMovesValue | internal/controller/reconciler_events.go:80-95 | a reconcile of the resource changes the template if and only if it changes the variable |
| Rollouts.RolledOutMoves | internal/pkg/workload/updater.go:352-384 | a reload by env-vars leaves the template as it was or moves the variable to a hash it did not hold |
| Rollouts.RepeatExactly | internal/pkg/workload/updater.go:44-200 | a repeated reload that succeeds leaves all templates and pods alone if and only if the workload has no pods (restart path), or the strategy is env-vars and the resource changed, or both attempts format to the same time (rollout path); one that fails disturbs nothing |
| RestartExample.RestartRepeats | internal/pkg/workload/updater.go:60-65 | a cluster in which a reconcile restarts a Deployment and fails to store the hash, and the retry, in which nothing fails, restarts it again for the same data |
| Rollouts.SecondsFormatApart | internal/pkg/workload/updater.go:335-336 | time stamps of different seconds differ, so repetitions in another second do not count as the same time |
| Rollouts.ReconciledValue | internal/controller/reloaderconfig_controller.go:127-221 | one reconcile that is not of another resource sharing the variable and handling the workload leaves the workload's variable alone or sets it to the hash of the present data; no reconcile changes data |
| Rollouts.ReloadedCarriesHash | internal/controller/reconciler_reload.go:95-126 | a workload reported as reloaded by env-vars carries the trigger's hash at the end of the pass, whatever later targets did |
| Rollouts.NamesGiveOwnVariables | internal/pkg/util/helpers.go:253-257 | among dot-free names, every resource with another name has a variable of its own |
| Rollouts.OwnIsHarmless | internal/controller/reloaderconfig_controller.go:127-221 | a request whose resources have variables of their own meets the premise of the bound, whatever it leads to |
| Rollouts.ResourcePassElsewhere | internal/controller/reconciler_events.go:64-95 | a pass that handles other workloads leaves this one's template alone, so a same-named resource of another namespace meets it too |
| Rollouts.RetryKeepsTemplate | internal/pkg/workload/updater.go:335-480 | rewriting a template a second time, for a change or a deletion, leaves it alone exactly when the strategy is env-vars and the resource changed, or both rewrites format to the same time |
| Pauses.ReloadsAreSpaced | internal/pkg/workload/updater.go:92-100 | a successful reload of an annotated workload on the rollout path and any later attempt are more than the pause period less one second apart, over any run in which the first stamp was written and nobody else edits it |
| Pauses.AnnotatedPauseIsExact | internal/pkg/workload/updater.go:509-534 | a readable annotated workload is attempted unless its stamp plus the period is still ahead |
| Pauses.StampLasts | internal/pkg/workload/updater.go:543-558 | a stamp, once written, never gets older over any run in which nobody else edits it |
| Pauses.StampsExactly | internal/pkg/workload/updater.go:44-103 | after any handling of a target its stamp is the time of this reload if it succeeded on the rollout path, as an annotated workload with a period, and the stamp could be written, and otherwise the stamp it had |
| Pauses.RestartLeavesNoStamp | internal/pkg/workload/updater.go:62-65 | on the restart path every stamp stays as it was, so a reload there starts no pause and ends none |
| Pauses.PauseWindow | internal/controller/reconciler_status.go:166-179 | once a success item with a pause period is applied, no later pass that can fetch the config and finds a period set attempts that target before the recorded end, over any number of passes, validations and items for others |
| Pauses.ConfigPauseIsExact | internal/pkg/workload/updater.go:494-507 | a CRD target whose config can be fetched is attempted unless the recorded end of its pause is still ahead |
| Pauses.PauseHolds | internal/controller/reconciler_reload.go:71-103 | a paused CRD target is skipped and the cluster is left as it was |
| Reload.NoPeriodIsAttempted | internal/pkg/workload/updater.go:483-486 | a target without a pause period is always attempted |
| Reload.UncheckedIsLeftAlone | internal/controller/reconciler_reload.go:89-94 | a period that does not parse, or an annotated workload that cannot be read for its stamp, leaves the cluster alone and reports nothing |
| Reload.AttemptTriggers | internal/controller/reconciler_reload.go:104-127 | an attempt is the reload of the target by its own strategies, and it succeeded exactly when that did |
| Reload.RefreshedExactly | internal/controller/reconciler_reload.go:71-87 | the pause check sees the newest copy of the config, or the listed one when it cannot be fetched |
| Pauses.ExecutionIsRun | internal/controller/reconciler_reload.go:60-130 | a whole execution is a run of the single-target events the pause theorems are about |
| Quiescence.QuiescentRun | internal/controller/reconciler_events.go:42-62 | after a successful reconcile, over any run of further reconciles, status updates and edits that leave data and stored hash alone, every reconcile of the resource reloads, queues and writes nothing |
| Quiescence.OnePassSettles | internal/controller/reconciler_events.go:42-95 | convergence: one reconcile in which no call fails brings a resource that is not ignored up to date, and from then on it is quiet as above |
| Quiescence.FaultFreeSucceeds | internal/controller/reloaderconfig_controller.go:127-221 | a reconcile in which no call fails returns no error, whatever becomes of the targets |
| Quiescence.QuiescentExactly | internal/controller/reloaderconfig_controller.go:148-163 | an up-to-date resource is left alone by every further reconcile if and only if it has data or reload-on-create is off |
| Quiescence.SuccessMakesUpToDate | internal/controller/reconciler_events.go:92-95 | a reconcile without error leaves the annotation equal to the hash of the data, which it does not change |
| Quiescence.HashAdvancesOnSuccess | internal/controller/reconciler_events.go:85-95 | the stored hash of a changed resource advances exactly when its reconcile returns no error; paused or failed targets do not hold it back |
| Quiescence.EarlierKindHides | internal/controller/reloaderconfig_controller.go:135-191 | a Secret or ConfigMap that shares its key with a config, and a ConfigMap that shares its key with a Secret, is never handled: a request for the key is about the earlier kind or fails, and the object stays as it was |
| Quiescence.DispatchExactly | internal/controller/reloaderconfig_controller.go:135-191 | when the lookups do not fail, a request leads to a resource of its key if and only if no earlier kind has that key |
| Quiescence.OthersLeaveAlone | internal/controller/reloaderconfig_controller.go:127-221 | reconciling one key never touches another resource's data or stored hash |
| Fixpoint.DiscoveryIsFixpoint | internal/controller/reconciler_discovery.go:54-110 | after any run of the controller without user edits, discovery and filtering give the same targets in the same order for every resource, config status aside |
| Fixpoint.ReconciledIsSame | internal/controller/reloaderconfig_controller.go:127-221 | a reconcile, whatever fails, changes only what the controller owns: appended or updated plain variables, its annotations, config status, pods |
| Fixpoint.SameReferences | internal/pkg/util/pod_references.go:36-155 | such changes to a pod spec never add or remove a reference |
| Fixpoint.SameDiscovered | internal/pkg/workload/finder.go:54-292 | clusters that differ only in what the controller writes have the same discovered targets |
| Fixpoint.SameFiltered | internal/controller/reconciler_discovery.go:158-221 | and the same filtered targets |
| Template.RewritesRefineMap | internal/pkg/workload/updater.go:352-480 | for any sequence of rewrites: prior entries keep position, name and reference, other names keep their value, lookup gives the last value written, each new name is appended once and counted exactly, nothing else in the pod spec changes, and only the two owned annotations change |
| Template.PutThenLookup | internal/pkg/workload/updater.go:366-381 | find-or-append is a map update at the first match |
| Template.PodTemplateSpec.PutFirstEnv | internal/pkg/workload/updater.go:363-381 | the in-place loop updates the first entry with the name in the first container or appends one |
| Template.PodTemplateSpec.ApplyEnvVarsStrategy | internal/pkg/workload/updater.go:352-384 | sets the resource's variable, or fails without effect when there is no container |
| Template.PodTemplateSpec.ApplyAnnotationsStrategy | internal/pkg/workload/updater.go:387-397 | writes time and source annotations |
| Template.PodTemplateSpec.ApplyDeleteEnvVarsStrategy | internal/pkg/workload/updater.go:425-464 | sets the variable to the deleted marker and drops the source annotation, or fails without effect |
| Template.PodTemplateSpec.ApplyDeleteAnnotationsStrategy | internal/pkg/workload/updater.go:467-480 | writes the time and drops the source annotation |
| Updater.RewriteLeaves | internal/pkg/workload/updater.go:335-480 | what is to be seen in the template after each strategy, for a change and for a deletion |
| Updater.RolloutRewrites | internal/pkg/workload/updater.go:44-136 | a successful rollout rewrites the template of the workload it read, as its strategy says, and no other template, pod or resource; a failed one changes nothing |
| Updater.RolloutSucceedsExactly | internal/pkg/workload/updater.go:44-136 | a rollout succeeds if and only if the workload can be read, the strategy is known, env-vars finds a container, and the write does not fail; a failed one changes nothing |
| Updater.RestartSucceedsExactly | internal/pkg/workload/updater.go:562-623 | a restart deletes the pods of the namespace that carry all labels of the workload, except those whose deletion fails, and nothing else; it succeeds if and only if the workload has labels, its pods can be listed, and there are none or one could be deleted |
| Updater.ApplyStrategy | internal/pkg/workload/updater.go:335-420 | the strategy switch; an unknown strategy fails without effect |
| Updater.ReloadWorkload | internal/pkg/workload/updater.go:232-305 | get, rewrite, update; on any error the workload is as before |
| Updater.RestartWorkloadPods | internal/pkg/workload/updater.go:562-623 | deletes exactly the selected pods whose deletion does not fail, and fails only when there were pods and none was deleted |
| Updater.SetLastReloadAnnotation | internal/pkg/workload/updater.go:543-558 | stamps the workload, or nothing when a call fails |
| Updater.TriggerReload | internal/pkg/workload/updater.go:44-200 | restart or rewrite, then the stamp for annotated workloads with a pause period |
| Updater.IsPaused | internal/pkg/workload/updater.go:483-535 | for a CRD target, whether any entry of it has a pause that ends later; otherwise stamp plus period against the clock; unreadable periods and workloads are errors |
| Reload.ExecuteReloads | internal/controller/reconciler_reload.go:60-280 | the loop visits the targets in order, each in the state the earlier ones left, queues the reports and counts the successes |
| Reload.ReloadTarget | internal/controller/reconciler_reload.go:71-126 | refetch, pause check, trigger and report for one target |
| Reload.ExecutionAccounting | internal/controller/reconciler_reload.go:60-206 | every target has one outcome; it is reloaded if and only if it was not paused and its trigger succeeded; the count is the number of those; one report, in order, for each attempted CRD target, with empty error if and only if it succeeded |
| Events.ReconcileResourceUpdate | internal/controller/reconciler_events.go:32-99 | the update handler equals its phases: ignore, compare, discover, filter, reload, queue, persist last |
| Events.ReconcileResourceCreated | internal/controller/reconciler_events.go:155-213 | the create handler: statuses are queued first, reloads only when enabled, hash last |
| Events.ReconcileResourceDeleted | internal/controller/reconciler_events.go:229-265 | the delete handler: delete reloads, and removals only after a success |
| Events.UpdateDecides | internal/controller/reconciler_events.go:32-80 | an update is left alone on request or when the stored hash is that of the data; any other reloads the discovered and filtered targets under its own name with the hash of its data |
| Events.CreateDecides | internal/controller/reconciler_events.go:155-203 | a creation is left alone on request, and reloads in the same way if and only if reload-on-create is on |
| Deletions.DeleteDecides | internal/controller/reconciler_events.go:229-265 | a deletion reloads the discovered and filtered targets as deleted |
| Deletions.UpdateDelivers | internal/controller/reconciler_events.go:64-95 | after an update pass, a workload it rolled out by env-vars carries the hash of the data in the variable of the resource |
| Deletions.DeletionDelivers | internal/controller/reconciler_events.go:229-265 | after a deletion pass, a workload it rolled out by env-vars says deleted, and when, in that variable, whatever later targets did |
| Deletions.DeletedCarriesMark | internal/pkg/workload/updater.go:425-464 | the same for any list of targets |
| Events.HashAnnotation | internal/controller/reconciler_events.go:357-383 | storing a hash changes one annotation and nothing else |
| Events.UpdateResourceHash | internal/controller/reconciler_events.go:357-383 | stores the hash annotation, or nothing when the call fails |
| Events.UpdateReloaderConfigStatuses | internal/controller/reconciler_status.go:234-260 | queues one config-level update for each config in order |
| Events.RemoveReloaderConfigStatusEntries | internal/controller/reconciler_status.go:191-223 | queues one removal for each config that records the resource |
| Events.RemovalsAreExact | internal/controller/reconciler_status.go:201-218 | removals go, in order, to exactly the configs whose status records the resource |
| Events.HashRequestsRecord | internal/controller/reconciler_status.go:242-259 | the updates go, in order, to the configs found, each with the resource and its new hash |
| Events.UpdateReports | internal/controller/reconciler_events.go:81-90 | a changed resource queues one report for each attempted CRD target, then one hash update for each config found if and only if some target was reloaded, and nothing else |
| Events.CreateReports | internal/controller/reconciler_events.go:192-203 | a new resource queues one hash update for each config found, then, with reload-on-create, one report for each attempted CRD target, and nothing else |
| Events.DeleteReports | internal/controller/reconciler_events.go:250-261 | a deletion queues one report for each attempted CRD target, then one removal for each config that records the resource if and only if some target was reloaded, and nothing else |
| Controller.Reconcile | internal/controller/reloaderconfig_controller.go:127-221 | dispatch by the first kind found under the key, with the create, update and delete branches and every early error |
| Controller.ReconcileMissing | internal/controller/reloaderconfig_controller.go:196-217 | the deletion branch: the first kind with targets or configs, and nothing when the flag is off |
| Deletions.DeletionExactly | internal/controller/reloaderconfig_controller.go:196-217 | for a key that nothing has, and lookups that do not fail: without reload-on-delete nothing happens; with it the Secret of that key counts as deleted if and only if its discovery succeeds with some target or config, else the ConfigMap on the same condition, else nothing happens |
| Controller.NewExactly | internal/controller/reloaderconfig_controller.go:148-191 | a resource is handled as new if and only if it has no stored hash and reload-on-create is on |
| Controller.ReconcileReloaderConfig | internal/controller/reloaderconfig_controller.go:239-292 | the five phases end in one status write, or in no change when it is refused |
| Controller.StatusBuilder.InitializeWatched | internal/controller/reloaderconfig_controller.go:304-366 | records the hash of every readable resource and sets Degraded for every other, in order |
| Controller.StatusBuilder.ValidateTargetWorkloads | internal/controller/reloaderconfig_controller.go:381-403 | sets Degraded for every target that is missing or cannot be checked, and returns whether there was none |
| Controller.ValidationOutcome | internal/controller/reloaderconfig_controller.go:239-292 | ends with Progressing false, unique condition types, the observed generation, and Degraded true if and only if some target is missing or cannot be checked |
| Controller.MissingTargetIsTold | internal/controller/reloaderconfig_controller.go:267-403 | when a target is missing or cannot be checked, Degraded names the last such target, and Available stays as it was |
| Controller.AvailableIsTold | internal/controller/reloaderconfig_controller.go:267-283 | when no target is, Available and Degraded both say so, whatever Secrets and ConfigMaps are missing |
| Controller.MissingResourceMovesTime | internal/controller/reloaderconfig_controller.go:255-283 | on a config that is not degraded and misses no target, a validation gives Degraded a new transition time if a watched Secret or ConfigMap is missing or cannot be read, although its status stays False, and keeps the time otherwise |
| Controller.ValidationIsIdempotent | internal/controller/reloaderconfig_controller.go:239-292 | a second validation of an unchanged cluster gives the same hashes, generation and condition list but for transition times, and changes nothing else |
| Controller.ValidationRecordsHashes | internal/controller/reloaderconfig_controller.go:304-366 | whatever reads fail, afterwards every watched resource that exists and was read is recorded with its present hash, and the record of every other resource of the namespace is as before |
| Controller.ValidationRecordsNothingElse | internal/controller/reloaderconfig_controller.go:304-366 | and so is the record under any other key, such as one of another namespace |
| Controller.ValidationLeavesRest | internal/controller/reloaderconfig_controller.go:239-292 | a validation leaves the reload count, the time of the last reload and the target entries alone |
| Controller.AvailableExactly | internal/controller/reloaderconfig_controller.go:381-403 | a target is available if and only if its check does not fail and a Deployment, StatefulSet or DaemonSet exists under its name, in its own namespace or else its config's |
| Api.ReadWorkloadExactly | internal/pkg/util/workload_helpers.go:30-61 | a workload is read if and only if the call does not fail, its kind is one of the three, and it exists |
| Api.ReadConfigExactly | internal/controller/reloaderconfig_controller.go:135-146 | a config is read if and only if the call does not fail and it exists under the key |
| Api.ReadResourceExactly | internal/controller/reloaderconfig_controller.go:148-191 | the same for a Secret or ConfigMap of that kind and key |
| Conditions.ConditionList.SetCondition | internal/pkg/util/conditions.go:49-77 | update in place at the first match, or append |
| Conditions.ConditionList.RemoveCondition | internal/pkg/util/conditions.go:102-109 | drops the first match and keeps the order of the others |
| Conditions.ConditionList.GetCondition | internal/pkg/util/conditions.go:80-87 | the first match, if any |
| Conditions.SetThenGet | internal/pkg/util/conditions.go:49-87 | a setting shows under its own type only, the transition time moves exactly when the status does, and types stay unique |
| Conditions.RemoveThenGet | internal/pkg/util/conditions.go:80-109 | removal affects its own type only |
| Conditions.SetAllTwice | internal/pkg/util/conditions.go:49-77 | making the same sequence of settings twice changes nothing but transition times |
| Discovery.SelectionIsExact | internal/controller/reconciler_discovery.go:54-221 | targets are those of the concerned, not ignoring configs in order, then the annotated workloads; filtering drops exactly those with targeted reload on, a reference required, and a successful lookup showing none; annotated workloads are never dropped |
| Discovery.MergedInOrder | internal/controller/reconciler_discovery.go:284-314 | the j-th target of the i-th config stands after all targets of the configs before it, and names that config |
| Discovery.StrategyPrecedence | internal/controller/reconciler_discovery.go:291-306 | every strategy is the first non-empty of target, config, global and built-in default; the namespace the target's own or its config's; kind, name, pause period and required reference are the target's |
| Discovery.IgnoredExactly | internal/controller/reconciler_discovery.go:113-142 | a config ignores a resource if and only if a rule names its kind, its name and, if it names one, its namespace |
| Discovery.ResourceAnnotationsExactly | internal/controller/reconciler_discovery.go:70-100 | search and match look at the annotations of the resource itself, or at none when it cannot be read |
| Discovery.DiscoveryFailsExactly | internal/controller/reconciler_discovery.go:54-110 | discovery fails if and only if one of its four lists does |
| Discovery.DiscoverTargets | internal/controller/reconciler_discovery.go:54-110 | the two searches, the ignore filter and the merge; a failing list is an error, an unreadable resource is not |
| Discovery.CheckIgnoreResource | internal/controller/reconciler_discovery.go:113-142 | true if and only if some rule matches kind, name and, when given, namespace |
| Discovery.FilterTargetsForTargetedReload | internal/controller/reconciler_discovery.go:158-221 | the loop keeps, in order, the targets that pass |
| Discovery.MergeTargets | internal/controller/reconciler_discovery.go:284-314 | config targets with resolved defaults, then annotated ones |
| Finder.ConfigConcernedExactly | internal/pkg/workload/finder.go:54-170 | a config is concerned if and only if it shares the namespace, is not ignored, and lists the resource or, with auto-reload, has a readable target there that references it |
| Finder.FindReloaderConfigsWatchingResource | internal/pkg/workload/finder.go:54-98 | the loop finds exactly the concerned configs in order |
| Finder.AnnotationPrecedence | internal/pkg/workload/finder.go:295-368 | the decision chain equals one formula of vetoes, named list, auto annotations, and search with match |
| Finder.AnnotatedAreExact | internal/pkg/workload/finder.go:181-292 | the annotated targets are exactly the concerned workloads of the three kinds in the namespace, with strategy, pause period and fixed env-vars strategy |
| Finder.FindWorkloadsWithAnnotations | internal/pkg/workload/finder.go:181-292 | the three lists in order; the first failing list is the error |
| PodReferences.CheckPodSpecReferencesResource | internal/pkg/util/pod_references.go:36-156 | true if and only if an env, envFrom, volume or projected source in any container, init container or volume names the resource |
| PodReferences.SecretReferences | internal/pkg/util/pod_references.go:36-156 | a Secret is referenced if and only if some env entry has it as secretKeyRef, some envFrom as secretRef, or some volume or projected source as secret, in any container or init container |
| PodReferences.ConfigMapReferences | internal/pkg/util/pod_references.go:36-156 | a ConfigMap is referenced if and only if the ConfigMap fields of one of these places name it |
| PodReferences.OtherKindsAreNotReferenced | internal/pkg/util/pod_references.go:36-156 | a resource of any other kind is never referenced |
| Hash.CalculateHash | internal/pkg/util/hash.go:31-55 | whatever order the map yields its keys in, the digest of the canonical encoding, and the empty string for no data |
| Hash.AscendingIsUnique | internal/pkg/util/hash.go:36-41 | a set of keys has only one ascending list |
| Hash.SortStringsSorts | internal/pkg/util/hash.go:36-41 | the sorted list is ascending and holds the same keys |
| Hash.LessExactly | internal/pkg/util/hash.go:36-41 | keys are ordered as Go strings: a proper prefix first, otherwise by the first different byte |
| Hash.DecodeAfterEncode | internal/pkg/util/hash.go:46-52 | the digest input reads back if and only if no key holds ':' and no value ';' |
| Hash.HashIdentifiesPlainData | internal/pkg/util/hash.go:31-55 | on such data equal hashes mean equal data or a SHA-256 collision |
| Hash.FoldedEntryCollides | internal/pkg/util/hash.go:46-52 | in particular every data with two keys or more shares its hash with other data |
| Hash.SharedAmongDataKeys | internal/pkg/util/hash.go:46-52 | among data with keys of letters, digits, '-', '.' and '_', other data shares the digest input if and only if there are two entries or more, or the single value holds a ';', a greater key and a ':' |
| Hash.SharedAmongColonFree | internal/pkg/util/hash.go:46-52 | the same among all data with colon-free keys |
| Hash.SharedAmong | internal/pkg/util/hash.go:46-52 | the same for any form of keys that excludes ':' |
| Hash.SharedExactly | internal/pkg/util/hash.go:46-52 | among arbitrary maps, data shares its digest input with other data if and only if the input contains two or more ':' |
| Hash.HashEmptyIffNoData | internal/pkg/util/hash.go:31-102 | the hash of a Secret or ConfigMap is empty if and only if it has no data in either map |
| Hash.ConfigMapHashIdentifies | internal/pkg/util/hash.go:31-102 | for ConfigMaps with disjoint text and binary keys and plain entries, equal hashes mean equal text and equal bytes, or a SHA-256 collision |
| Hash.SecretHashIdentifies | internal/pkg/util/hash.go:31-102 | for Secrets with plain data, equal hashes mean equal data or a collision |
| Hash.EntryChangeIsDetected | internal/pkg/util/hash.go:31-102 | on plain entries, whatever maps hold them, a change of the bytes under any key changes the hash, or SHA-256 collides |
| Hash.SameEntriesSameHash | internal/pkg/util/hash.go:31-102 | resources with the same bytes under every key, a binary value counting before a text one, have the same hash |
| Hash.DataIsEntries | internal/pkg/util/hash.go:74-102 | under a key in both maps of a ConfigMap the binary value counts |
| Hash.MergeDataMaps | internal/pkg/util/hash.go:74-88 | text and bytes in one map, bytes win |
| Hash.GetResourceDataAndHash | internal/pkg/util/hash.go:92-102 | the hash of the merged data; any other kind is an error |
| Helpers.ParseAfterJoin | internal/pkg/util/helpers.go:135-151 | parsing the comma-join gives the names back if and only if all are trimmed, non-empty and comma-free |
| Helpers.ParsedNamesAreClean | internal/pkg/util/helpers.go:135-151 | every parsed name has that form, whatever the input |
| Helpers.ParseCommaSeparatedList | internal/pkg/util/helpers.go:135-151 | the loop collects the trimmed, non-empty fields |
| Helpers.TrimSpaceIsExact | internal/pkg/util/helpers.go:141-148 | trimming cuts white space off both ends, nothing else, until no more can be cut |
| Helpers.ParseAfterMake | internal/pkg/util/helpers.go:162-173 | parsing a made key gives its parts back if and only if none holds a slash |
| Helpers.MakeAfterParse | internal/pkg/util/helpers.go:162-173 | making undoes parsing on every accepted key |
| Helpers.ResourceKeysAreDistinct | internal/pkg/util/helpers.go:162-164 | resources with slash-free parts never share a status hash entry |
| Helpers.EnvVarNameIsValid | internal/pkg/util/helpers.go:232-257 | every generated name uses only A-Z, 0-9 and underscore, and starts with a letter |
| Helpers.EnvVarNameTells | internal/pkg/util/helpers.go:232-257 | the variable of a Kubernetes name is the prefix, the name with letters in upper case, digits kept and an underscore for the rest, and the kind |
| Helpers.EnvVarNamesCollide | internal/pkg/util/helpers.go:232-257 | two Kubernetes names share a variable if and only if the kinds agree and the names differ in nothing but dots against hyphens |
| Helpers.EnvVarNamesAreDistinct | internal/pkg/util/helpers.go:253-257 | on dot-free names the variable tells kind and name |

## Left out

- Alerts: sending one cannot affect a reload; handleReloadError and handleReloadSuccess are modelled without it.
- Manager setup, flags, TLS, leader election, RBAC, Helm and Kustomize files, generated code, logging.
- Event predicates, the namespace and resource label selectors, and what enqueues a request: any request may come at any time.
- Shutdown of the work queue. Re-adding a failed item after its back-off and marking it done are one step.
- Interleaving inside one reload pass with other editors: a pass runs as one step whose calls may fail, and edits fall between passes. The status protocol is modelled step by step.
- Stale cached reads outside the status protocol.
- Wrap-around of the 64-bit counters and generations; they are unbounded.
- CronJob, Rollout and DeploymentConfig kinds, which the code rejects as unsupported; that error path is modelled.
- Label selectors other than matchLabels, which the restart path does not read.
- Upper-casing of characters outside ASCII, except the two that have an ASCII upper case; names are sequences of characters, so ill-formed UTF-8 is not modelled.
- Durations and times are what `Platform` says they are; overflow of nanosecond arithmetic is not modelled.
- CalculateHashFromStringMap, the IsCondition, IsSupported and ShouldReloadOn helpers and CreateReloadSourceAnnotation's JSON: unused, or one line around what is modelled.
- Claims the code does not support: that ReloadCount counts passes (equal config-level items may merge while queued), that the newest hash in a status always wins under retries, that every change reaches every target (the hash is stored although targets were paused or failed).
- StatusProtocol.WorkerDrains: bounds how often the worker and its timers move, not how long they take.
- Pauses.ReloadsAreSpaced: needs the first reload's stamp to have been written, since the code only logs a failure to write it.
- Pauses.PauseWindow: excludes later success items for the same target, which set a new end that may be earlier if the period was shortened.
- Rollouts.RetriesDoNotRollOut: is about one resource that exists throughout and counts changes of the template by reconciles of that resource; for other strategies and the restart path `Rollouts.RepeatExactly` says what a repetition does.
