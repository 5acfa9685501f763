/** From reloads to counters: what became of every reported reload of a CRD target. */
module Accounting {
  import opened Common
  import opened Kube
  import opened Updater
  import opened Queue
  import opened QueueDrain
  import opened Status
  import opened Reload
  import opened StatusProtocol

  /** One call of executeReloads or executeDeleteReloads, in the state it starts in. */
  datatype Execution = Execution(ctx: Context, cluster: Cluster, targets: seq<Target>, trigger: Trigger)

  function ProgressOf(e: Execution): Progress
  {
    Executed(e.ctx, e.cluster, e.targets, e.trigger)
  }

  /** All the reports of some executions. */
  function Reports(executions: seq<Execution>): seq<StatusRequest>
  {
    if executions == [] then []
    else
      var n := |executions| - 1;
      Reports(executions[..n]) + ProgressOf(executions[n]).requests
  }

  /* ---- Counting requests ---- */

  predicate ReportsSuccess(r: StatusRequest, config: ObjectKey, target: WorkloadKey)
  {
    r.TargetRequest? && r.config == config && r.target.key == target && r.errorMsg == ""
  }

  function CountRequests(requests: seq<StatusRequest>, config: ObjectKey, target: WorkloadKey): nat
  {
    if requests == [] then 0
    else
      var n := |requests| - 1;
      CountRequests(requests[..n], config, target) + (if ReportsSuccess(requests[n], config, target) then 1 else 0)
  }

  lemma {:induction false} CountAppended(a: seq<StatusRequest>, b: seq<StatusRequest>, config: ObjectKey,
                                         target: WorkloadKey)
    ensures CountRequests(a + b, config, target) == CountRequests(a, config, target) + CountRequests(b, config, target)
  {
    if b == [] {
      AppendNothing(a);
    } else {
      AppendLast(a, b);
      CountAppended(a, b[..|b| - 1], config, target);
    }
  }

  lemma CountOne(r: StatusRequest, config: ObjectKey, target: WorkloadKey)
    ensures CountRequests([r], config, target) == if ReportsSuccess(r, config, target) then 1 else 0
  {
    assert [r][..0] == [];
  }

  function Without(a: seq<StatusRequest>, i: nat): (r: seq<StatusRequest>)
    requires i < |a|
    ensures |r| == |a| - 1
  {
    a[..i] + a[i + 1..]
  }

  lemma WithoutMultiset(a: seq<StatusRequest>, i: nat)
    requires i < |a|
    ensures multiset(Without(a, i)) == multiset(a) - multiset{a[i]}
  {
    assert a == a[..i] + [a[i]] + a[i + 1..];
  }

  lemma CountWithout(a: seq<StatusRequest>, i: nat, config: ObjectKey, target: WorkloadKey)
    requires i < |a|
    ensures CountRequests(a, config, target) ==
            CountRequests(Without(a, i), config, target) + (if ReportsSuccess(a[i], config, target) then 1 else 0)
  {
    var before, after := a[..i], a[i + 1..];
    assert a == before + ([a[i]] + after);
    CountAppended(before, [a[i]] + after, config, target);
    CountAppended([a[i]], after, config, target);
    CountAppended(before, after, config, target);
    CountOne(a[i], config, target);
  }

  lemma InMultiset(a: seq<StatusRequest>, b: seq<StatusRequest>) returns (i: nat)
    requires a != [] && multiset(a) == multiset(b)
    ensures i < |b| && b[i] == a[0]
  {
    assert a[0] in multiset(b);
    i :| i < |b| && b[i] == a[0];
  }

  /** The order of requests does not matter. */
  lemma {:induction false} CountByMultiset(a: seq<StatusRequest>, b: seq<StatusRequest>, config: ObjectKey,
                                           target: WorkloadKey)
    requires multiset(a) == multiset(b)
    ensures CountRequests(a, config, target) == CountRequests(b, config, target)
    decreases |a|
  {
    if a == [] {
      assert |multiset(b)| == |b|;
    } else {
      var i := InMultiset(a, b);
      WithoutMultiset(a, 0);
      WithoutMultiset(b, i);
      CountByMultiset(Without(a, 0), Without(b, i), config, target);
      CountWithout(a, 0, config, target);
      CountWithout(b, i, config, target);
    }
  }

  /* ---- Reports and reloads ---- */

  predicate IsFor(t: Target, config: ObjectKey, target: WorkloadKey)
  {
    t.config.Some? && t.config.value.key == config && t.key == target
  }

  /** The positions at which an execution reloaded this target of this config. */
  function ReloadsOf(targets: seq<Target>, outcomes: seq<Outcome>, config: ObjectKey, target: WorkloadKey): set<int>
  {
    set i | 0 <= i < |outcomes| && i < |targets| && IsFor(targets[i], config, target) && outcomes[i].Reloaded?
  }

  lemma ReloadsNext(targets: seq<Target>, outcomes: seq<Outcome>, o: Outcome, config: ObjectKey, target: WorkloadKey)
    requires |outcomes| < |targets|
    ensures ReloadsOf(targets, outcomes + [o], config, target) ==
            if IsFor(targets[|outcomes|], config, target) && o.Reloaded?
            then ReloadsOf(targets, outcomes, config, target) + {|outcomes|}
            else ReloadsOf(targets, outcomes, config, target)
    ensures |outcomes| !in ReloadsOf(targets, outcomes, config, target)
  {
  }

  lemma StepCount(step: Handled, t: Target, config: ObjectKey, target: WorkloadKey)
    requires StepReports(step, t)
    ensures CountRequests(step.requests, config, target) ==
            if IsFor(t, config, target) && step.outcome.Reloaded? then 1 else 0
  {
    if t.config.Some? && Attempted(step.outcome) {
      assert step.requests == [step.requests[0]];
      CountOne(step.requests[0], config, target);
    }
  }

  lemma {:induction false} LoopCount(handle: Handler, c: Cluster, targets: seq<Target>, n: nat, config: ObjectKey,
                                     target: WorkloadKey)
    requires n <= |targets|
    requires forall d, k: nat :: k < n ==> StepReports(handle(d, targets[k], k), targets[k])
    ensures var p := HandledUpTo(handle, c, targets, n);
            CountRequests(p.requests, config, target) == |ReloadsOf(targets, p.outcomes, config, target)|
  {
    if n == 0 {
    } else {
      LoopCount(handle, c, targets, n - 1, config, target);
      var before := HandledUpTo(handle, c, targets, n - 1);
      var step := handle(before.cluster, targets[n - 1], n - 1);
      StepCount(step, targets[n - 1], config, target);
      CountAppended(before.requests, step.requests, config, target);
      ReloadsNext(targets, before.outcomes, step.outcome, config, target);
    }
  }

  /** An execution reports as many successes of a target as it has reloads of it. */
  lemma ExecutionCount(e: Execution, config: ObjectKey, target: WorkloadKey)
    requires Speaking(e.ctx.faults)
    ensures CountRequests(ProgressOf(e).requests, config, target) ==
            |ReloadsOf(e.targets, ProgressOf(e).outcomes, config, target)|
  {
    var handle := ReloadHandler(e.ctx, e.trigger);
    forall d, k: nat | k < |e.targets| ensures StepReports(handle(d, e.targets[k], k), e.targets[k]) {
      ReloadReports(e.ctx, d, e.targets[k], e.trigger, k);
    }
    LoopCount(handle, e.cluster, e.targets, |e.targets|, config, target);
  }

  /** How often the executions reloaded this target of this config. */
  function Reloads(executions: seq<Execution>, config: ObjectKey, target: WorkloadKey): nat
  {
    if executions == [] then 0
    else
      var n := |executions| - 1;
      Reloads(executions[..n], config, target) +
      |ReloadsOf(executions[n].targets, ProgressOf(executions[n]).outcomes, config, target)|
  }

  ghost predicate AllSpeaking(executions: seq<Execution>)
  {
    forall i :: 0 <= i < |executions| ==> Speaking(executions[i].ctx.faults)
  }

  lemma {:induction false} ReportsCount(executions: seq<Execution>, config: ObjectKey, target: WorkloadKey)
    requires AllSpeaking(executions)
    ensures CountRequests(Reports(executions), config, target) == Reloads(executions, config, target)
  {
    if executions == [] {
    } else {
      var n := |executions| - 1;
      ReportsCount(executions[..n], config, target);
      ExecutionCount(executions[n], config, target);
      CountAppended(Reports(executions[..n]), ProgressOf(executions[n]).requests, config, target);
    }
  }

  /* ---- Requests and items ---- */

  /** The target requests that a run of the status protocol queues. */
  ghost function Requested(events: seq<Event>): seq<StatusRequest>
  {
    if events == [] then []
    else
      var n := |events| - 1;
      if events[n].Queued? && events[n].request.TargetRequest? then Requested(events[..n]) + [events[n].request]
      else Requested(events[..n])
  }

  /** The success items ever queued for this target of this config. */
  function ItemsFor(born: set<Item>, config: ObjectKey, target: WorkloadKey): set<Item>
  {
    set item | item in born && item.config == config && Succeeds(item, target)
  }

  lemma ItemsForNext(born: set<Item>, item: Item, config: ObjectKey, target: WorkloadKey)
    requires item !in born
    ensures |ItemsFor(born + {item}, config, target)| ==
            |ItemsFor(born, config, target)| + (if item.config == config && Succeeds(item, target) then 1 else 0)
  {
    if item.config == config && Succeeds(item, target) {
      assert ItemsFor(born + {item}, config, target) == ItemsFor(born, config, target) + {item};
    } else {
      assert ItemsFor(born + {item}, config, target) == ItemsFor(born, config, target);
    }
  }

  /** Only target requests make target items, each a new one. */
  lemma BornNext(perform: Performer, s: System, e: Event)
    requires Accounted(s)
    ensures if e.Queued? && e.request.TargetRequest?
            then var item := TargetItem(e.request.config, s.queue.nextId, e.request.target, e.request.errorMsg);
                 item !in s.born && Next(perform, s, e).born == s.born + {item}
            else Next(perform, s, e).born == s.born
  {
  }

  lemma {:induction false} RequestsBecomeItems(perform: Performer, events: seq<Event>, config: ObjectKey,
                                               target: WorkloadKey)
    ensures |ItemsFor(Run(perform, START, events).born, config, target)| ==
            CountRequests(Requested(events), config, target)
  {
    if events == [] {
      assert ItemsFor({}, config, target) == {};
    } else {
      var n := |events| - 1;
      var s, e := Run(perform, START, events[..n]), events[n];
      RequestsBecomeItems(perform, events[..n], config, target);
      RunIsAccounted(perform, events[..n]);
      BornNext(perform, s, e);
      if e.Queued? && e.request.TargetRequest? {
        var item := TargetItem(e.request.config, s.queue.nextId, e.request.target, e.request.errorMsg);
        ItemsForNext(s.born, item, config, target);
        CountAppended(Requested(events[..n]), [e.request], config, target);
        CountOne(e.request, config, target);
      }
    }
  }

  /* ---- Where the items are ---- */

  function Waiting(items: set<Item>, fate: map<Item, Fate>): set<Item>
  {
    set item | item in items && item !in fate
  }

  function EndedAs(items: set<Item>, fate: map<Item, Fate>, end: Fate): set<Item>
  {
    set item | item in items && item in fate && fate[item] == end
  }

  lemma ItemsAreSomewhere(items: set<Item>, fate: map<Item, Fate>)
    ensures |items| == |Waiting(items, fate)| + |EndedAs(items, fate, Succeeded)| + |EndedAs(items, fate, GivenUp)| +
                       |EndedAs(items, fate, Orphaned)|
  {
    var a, b := Waiting(items, fate), EndedAs(items, fate, Succeeded);
    var c, d := EndedAs(items, fate, GivenUp), EndedAs(items, fate, Orphaned);
    assert items == a + b + c + d;
    assert a !! b && (a + b) !! c && (a + b + c) !! d;
  }

  lemma AppliedItems(x: Platform, events: seq<Event>, config: ObjectKey, target: WorkloadKey)
    requires config in Run(Performing(x), START, events).store.configs
    ensures var s := Run(Performing(x), START, events);
            var count := TargetCount(s.store.configs[config].config.status, target);
            var applied := |EndedAs(ItemsFor(s.born, config, target), s.fate, Succeeded)|;
            count <= applied && (config !in s.deleted ==> count == applied)
  {
    var s := Run(Performing(x), START, events);
    CountsAreItems(x, events, config, target);
    AppliedAre(s.born, s.fate, config, target);
    SubsetSize(SuccessesIn(s.log[config], target), EndedAs(ItemsFor(s.born, config, target), s.fate, Succeeded));
  }

  lemma AppliedAre(born: set<Item>, fate: map<Item, Fate>, config: ObjectKey, target: WorkloadKey)
    ensures EndedAs(ItemsFor(born, config, target), fate, Succeeded) ==
            set item | item in born && WasApplied(fate, item) && item.config == config && Succeeds(item, target)
  {
  }

  /** End to end: run the status protocol with the reports of any executions, queued in any order and interleaved with
      anything. Every reload of a CRD target is then accounted for by exactly one item: waiting in exactly one place of
      the queue, applied, given up after six failures, or orphaned. The stored count of the target never exceeds the
      applied ones, and equals them as long as no config of that name was deleted. */
  lemma ReloadsAreCounted(x: Platform, events: seq<Event>, executions: seq<Execution>, config: ObjectKey,
                          target: WorkloadKey)
    requires AllSpeaking(executions) && multiset(Requested(events)) == multiset(Reports(executions))
    ensures var s := Run(Performing(x), START, events);
            var items := ItemsFor(s.born, config, target);
            && Reloads(executions, config, target) ==
               |Waiting(items, s.fate)| + |EndedAs(items, s.fate, Succeeded)| + |EndedAs(items, s.fate, GivenUp)| +
               |EndedAs(items, s.fate, Orphaned)|
            && (forall item :: item in items ==> Settled(s, item))
            && (config in s.store.configs ==>
                  var count := TargetCount(s.store.configs[config].config.status, target);
                  count <= |EndedAs(items, s.fate, Succeeded)| &&
                  (config !in s.deleted ==> count == |EndedAs(items, s.fate, Succeeded)|))
  {
    var s := Run(Performing(x), START, events);
    RequestsBecomeItems(Performing(x), events, config, target);
    CountByMultiset(Requested(events), Reports(executions), config, target);
    ReportsCount(executions, config, target);
    ItemsAreSomewhere(ItemsFor(s.born, config, target), s.fate);
    RunIsAccounted(Performing(x), events);
    if config in s.store.configs {
      AppliedItems(x, events, config, target);
    }
  }
}
