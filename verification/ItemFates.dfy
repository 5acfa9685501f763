/** What becomes of a request for a status update: its item is queued, waits its turn, and ends in one of three ways. */
module ItemFates {
  import opened Common
  import opened Kube
  import opened Queue
  import opened Status
  import opened QueueDrain
  import opened StatusProtocol

  /* ---- Requests are queued ---- */

  function ItemOf(r: StatusRequest): Item
    requires r.ConfigRequest?
  {
    ConfigItem(r.config, r.namespace, r.kind, r.name, r.newHash)
  }

  /** A config-level request puts its item among those to be done, at the end of the line unless it is in line or being
      worked on already, and changes nothing else. */
  lemma ConfigItemsAreQueued(perform: Performer, s: System, request: StatusRequest)
    requires request.ConfigRequest?
    ensures var item, q, q' := ItemOf(request), s.queue, Next(perform, s, Queued(request)).queue;
            && item in q'.dirty
            && q'.dirty == q.dirty + {item}
            && q'.fifo == (if item in q.dirty || item in q.processing then q.fifo else q.fifo + [item])
            && Next(perform, s, Queued(request)) == s.(queue := q.(dirty := q'.dirty, fifo := q'.fifo))
  {
  }

  function Queueing(requests: seq<StatusRequest>): seq<Event>
  {
    seq(|requests|, i requires 0 <= i < |requests| => Queued(requests[i]))
  }

  /** The requests of a pass are queued one after the other. */
  lemma {:induction false} RequestsAreQueued(perform: Performer, s: System, requests: seq<StatusRequest>)
    ensures EnqueueAll(s.queue, requests) == Run(perform, s, Queueing(requests)).queue
  {
    if requests == [] {
    } else {
      var n := |requests| - 1;
      RequestsAreQueued(perform, s, requests[..n]);
      assert Queueing(requests)[..n] == Queueing(requests[..n]);
    }
  }

  /** After a pass the item of each of its config-level requests is there to be done. */
  lemma {:induction false} PassIsQueued(q: Queue, requests: seq<StatusRequest>, i: nat)
    requires i < |requests| && requests[i].ConfigRequest?
    ensures ItemOf(requests[i]) in EnqueueAll(q, requests).dirty
  {
    var n := |requests| - 1;
    if i < n {
      PassIsQueued(q, requests[..n], i);
    }
  }

  /* ---- How an attempt ends ---- */

  /** The worker takes the item. */
  ghost predicate Takes(s: System, e: Event, item: Item)
  {
    && e.WorkerFetches? && s.worker.Idle? && s.queue.fifo != [] && s.queue.fifo[0] == item
    && MayRead(s, item.config, e.read)
  }

  /** The item's change is made to the stored status of its config, and logged there. */
  ghost predicate Applies(perform: Performer, s: System, e: Event, item: Item)
  {
    && e.WorkerWrites? && s.worker.Busy? && s.worker.item == item
    && item.config in s.log && item.config in s.store.configs
    && var op, s' := Worked(item, e.now), Next(perform, s, e);
       && s'.log == s.log[item.config := s.log[item.config] + [op]]
       && s'.applied == s.applied + [item]
       && item.config in s'.store.configs
       && s'.store.configs[item.config].config.status ==
          Persisted(perform(s.store.configs[item.config].config.status, op))
  }

  /** An attempt at the item fails for good after five retries, without effect on any status. */
  ghost predicate GivesUp(perform: Performer, s: System, e: Event, item: Item)
  {
    && ((Takes(s, e, item) && e.read.Fails?) || (e.WorkerWrites? && s.worker.Busy? && s.worker.item == item))
    && NumRequeues(s.queue, item) == 5
    && Next(perform, s, e).store == s.store && Next(perform, s, e).log == s.log
    && Next(perform, s, e).applied == s.applied
  }

  ghost predicate Ends(perform: Performer, s: System, e: Event, item: Item)
  {
    Applies(perform, s, e, item) || GivesUp(perform, s, e, item) || FindsGone(s, e, item)
  }

  lemma FinishLoses(q: Queue, item: Item, failed: bool, other: Item)
    requires CountersLive(q)
    requires Live(q, other) && !Live(Finish(q, item, failed), other)
    ensures other == item && (failed ==> NumRequeues(q, item) == 5)
  {
    if other != item {
      FinishElsewhere(q, item, failed, other);
    }
  }

  lemma TakeKeepsLive(q: Queue, item: Item)
    requires q.fifo != [] && Live(q, item)
    ensures Live(Take(q), item) && NumRequeues(Take(q), item) == NumRequeues(q, item)
  {
  }

  lemma FetchingLoses(s: System, read: Read, item: Item)
    requires WellFormed(s.queue) && s.queue.fifo != [] && Live(s.queue, item) && !Live(Fetching(s, read).queue, item)
    ensures s.queue.fifo[0] == item && !read.Sees?
    ensures read.Fails? ==> NumRequeues(s.queue, item) == 5
  {
    TakeKeeps(s.queue);
    TakeKeepsLive(s.queue, item);
    if !read.Sees? {
      FinishLoses(Take(s.queue), s.queue.fifo[0], read.Fails?, item);
    }
  }

  lemma FailedFetchLeaves(s: System, read: Read)
    requires s.queue.fifo != [] && read.Fails?
    ensures var s' := Fetching(s, read); s'.store == s.store && s'.log == s.log && s'.applied == s.applied
  {
  }

  lemma FetchLosesByEnd(perform: Performer, s: System, read: Read, item: Item)
    requires WellFormed(s.queue)
    requires Live(s.queue, item) && !Live(Next(perform, s, WorkerFetches(read)).queue, item)
    ensures Ends(perform, s, WorkerFetches(read), item)
  {
    FetchingLoses(s, read, item);
    if read.Fails? {
      FailedFetchLeaves(s, read);
    }
  }

  lemma WritingLoses(perform: Performer, s: System, now: int, fault: Option<string>, item: Item)
    requires WellFormed(s.queue) && s.worker.Busy? && Live(s.queue, item)
    requires !Live(Writing(perform, s, now, fault).queue, item)
    ensures s.worker.item == item
    ensures Committed(perform, s, s.worker.base, Worked(item, now), fault) == None ==> NumRequeues(s.queue, item) == 5
  {
    FinishLoses(s.queue, s.worker.item, Committed(perform, s, s.worker.base, Worked(s.worker.item, now), fault) == None,
                item);
  }

  lemma FailedWriteLeaves(perform: Performer, s: System, now: int, fault: Option<string>)
    requires s.worker.Busy? && Committed(perform, s, s.worker.base, Worked(s.worker.item, now), fault) == None
    ensures var s' := Writing(perform, s, now, fault); s'.store == s.store && s'.log == s.log && s'.applied == s.applied
  {
  }

  lemma WriteApplies(perform: Performer, s: System, now: int, fault: Option<string>)
    requires Serial(perform, s) && Traced(s) && s.worker.Busy?
    requires Committed(perform, s, s.worker.base, Worked(s.worker.item, now), fault).Some?
    ensures Applies(perform, s, WorkerWrites(now, fault), s.worker.item)
  {
    CommitIsOnStored(perform, s, s.worker.base, Worked(s.worker.item, now), fault);
  }

  lemma WriteLosesByEnd(perform: Performer, s: System, now: int, fault: Option<string>, item: Item)
    requires WellFormed(s.queue) && Serial(perform, s) && Traced(s)
    requires Live(s.queue, item) && !Live(Next(perform, s, WorkerWrites(now, fault)).queue, item)
    ensures Ends(perform, s, WorkerWrites(now, fault), item)
  {
    WritingLoses(perform, s, now, fault, item);
    if Committed(perform, s, s.worker.base, Worked(item, now), fault) == None {
      FailedWriteLeaves(perform, s, now, fault);
    } else {
      WriteApplies(perform, s, now, fault);
    }
  }

  lemma LiveIsLostByEnd(perform: Performer, s: System, e: Event, item: Item)
    requires Accounted(s) && Serial(perform, s) && Traced(s)
    ensures Live(s.queue, item) && !Live(Next(perform, s, e).queue, item) ==> Ends(perform, s, e, item)
  {
    if Live(s.queue, item) && !Live(Next(perform, s, e).queue, item) {
      match e
      case WorkerFetches(read) => FetchLosesByEnd(perform, s, read, item);
      case WorkerWrites(now, fault) => WriteLosesByEnd(perform, s, now, fault, item);
      case _ =>
    }
  }

  lemma FetchKeepsDirty(s: System, read: Read, item: Item)
    requires s.queue.fifo != [] && item in s.queue.dirty && s.queue.fifo[0] != item
    ensures item in Fetching(s, read).queue.dirty
  {
  }

  lemma WriteKeepsDirty(perform: Performer, s: System, now: int, fault: Option<string>, item: Item)
    requires s.worker.Busy? && item in s.queue.dirty
    ensures item in Writing(perform, s, now, fault).queue.dirty
  {
  }

  /** An item to be done stays so until the worker takes it. */
  lemma DirtyUntilTaken(perform: Performer, s: System, e: Event, item: Item)
    requires item in s.queue.dirty && item !in Next(perform, s, e).queue.dirty
    ensures Takes(s, e, item)
  {
    match e
    case WorkerFetches(read) =>
      if s.worker.Idle? && s.queue.fifo != [] && s.queue.fifo[0] != item {
        FetchKeepsDirty(s, read, item);
      }
    case WorkerWrites(now, fault) =>
      if s.worker.Busy? {
        WriteKeepsDirty(perform, s, now, fault, item);
      }
    case _ =>
  }

  /* ---- Over a run ---- */

  ghost predicate TakenAt(perform: Performer, events: seq<Event>, p: nat, item: Item)
    requires p < |events|
  {
    Takes(Run(perform, START, events[..p]), events[p], item)
  }

  ghost predicate EndedAt(perform: Performer, events: seq<Event>, m: nat, item: Item)
    requires m < |events|
  {
    Ends(perform, Run(perform, START, events[..m]), events[m], item)
  }

  /** An attempt at the item that began at or after a step has ended. */
  ghost predicate DoneSince(perform: Performer, events: seq<Event>, n: nat, item: Item)
  {
    exists p, m :: n <= p <= m < |events| && TakenAt(perform, events, p, item) && EndedAt(perform, events, m, item)
  }

  lemma Prefix(events: seq<Event>, m: nat)
    requires m < |events|
    ensures forall k: nat :: k <= m ==> events[..m][..k] == events[..k]
  {
  }

  lemma {:induction false} LiveUntilEnd(perform: Performer, events: seq<Event>, k: nat, item: Item)
    requires k <= |events| && Live(Run(perform, START, events[..k]).queue, item)
    ensures Live(Run(perform, START, events).queue, item) ||
            exists m :: k <= m < |events| && EndedAt(perform, events, m, item)
  {
    if k == |events| {
      assert events[..k] == events;
    } else {
      var n := |events| - 1;
      var s := Run(perform, START, events[..n]);
      Prefix(events, n);
      LiveUntilEnd(perform, events[..n], k, item);
      if Live(s.queue, item) {
        RunIsAccounted(perform, events[..n]);
        RunKeepsSerial(perform, events[..n]);
        RunKeepsTraced(perform, events[..n]);
        if !Live(Next(perform, s, events[n]).queue, item) {
          LiveIsLostByEnd(perform, s, events[n], item);
          assert EndedAt(perform, events, n, item);
        }
      } else {
        var m :| k <= m < n && EndedAt(perform, events[..n], m, item);
        assert EndedAt(perform, events, m, item);
      }
    }
  }

  lemma {:induction false} DirtyOrTaken(perform: Performer, events: seq<Event>, k: nat, item: Item)
    requires k <= |events| && item in Run(perform, START, events[..k]).queue.dirty
    ensures item in Run(perform, START, events).queue.dirty ||
            exists p :: k <= p < |events| && TakenAt(perform, events, p, item)
  {
    if k == |events| {
      assert events[..k] == events;
    } else {
      var n := |events| - 1;
      var s := Run(perform, START, events[..n]);
      Prefix(events, n);
      DirtyOrTaken(perform, events[..n], k, item);
      if item in s.queue.dirty {
        if item !in Next(perform, s, events[n]).queue.dirty {
          DirtyUntilTaken(perform, s, events[n], item);
          assert TakenAt(perform, events, n, item);
        }
      } else {
        var p :| k <= p < n && TakenAt(perform, events[..n], p, item);
        assert TakenAt(perform, events, p, item);
      }
    }
  }

  lemma QueuedAt(perform: Performer, events: seq<Event>, n: nat)
    requires n < |events| && events[n].Queued? && events[n].request.ConfigRequest?
    ensures ItemOf(events[n].request) in Run(perform, START, events[..n + 1]).queue.dirty
  {
    assert events[..n + 1][..n] == events[..n];
    ConfigItemsAreQueued(perform, Run(perform, START, events[..n]), events[n].request);
  }

  lemma TakenIsLive(perform: Performer, events: seq<Event>, p: nat, item: Item)
    requires p < |events| && TakenAt(perform, events, p, item)
    ensures Live(Run(perform, START, events[..p]).queue, item)
  {
    RunIsAccounted(perform, events[..p]);
    TakeKeeps(Run(perform, START, events[..p]).queue);
  }

  /** A config-level update that is requested at any step of any run is not dropped: as long as it is not live, that is
      waiting, being worked on or backing off, an attempt that began after the request has applied it, has failed for
      good, or has found its config gone. */
  lemma ConfigItemsEnd(perform: Performer, events: seq<Event>, n: nat)
    requires n < |events| && events[n].Queued? && events[n].request.ConfigRequest?
    ensures var item := ItemOf(events[n].request);
            Live(Run(perform, START, events).queue, item) || DoneSince(perform, events, n + 1, item)
  {
    var item := ItemOf(events[n].request);
    QueuedAt(perform, events, n);
    DirtyOrTaken(perform, events, n + 1, item);
    if item !in Run(perform, START, events).queue.dirty {
      var p :| n + 1 <= p < |events| && TakenAt(perform, events, p, item);
      TakenIsLive(perform, events, p, item);
      LiveUntilEnd(perform, events, p, item);
    }
  }

  /** Once the worker has drained, every config-level update ever requested has ended. */
  lemma DrainedHasEnded(perform: Performer, events: seq<Event>, n: nat)
    requires n < |events| && events[n].Queued? && events[n].request.ConfigRequest?
    requires Pending(Run(perform, START, events).queue) == 0
    ensures DoneSince(perform, events, n + 1, ItemOf(events[n].request))
  {
    ConfigItemsEnd(perform, events, n);
    var q := Run(perform, START, events).queue;
    assert q.dirty == {} && q.processing == {} && q.delayed == {};
  }
}
