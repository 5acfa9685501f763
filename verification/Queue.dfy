/** The work queue in front of the status worker: the documented contract of client-go's rate-limiting queue
    for one consumer, without shutdown. */
module Queue {
  import opened Common
  import opened Kube

  /** A queued status update. Config-level items are compared by content; a target item carries a pointer
      made for it alone, here its `id`. */
  datatype Item =
    | ConfigItem(config: ObjectKey, namespace: string, kind: string, name: string, newHash: string)
    | TargetItem(config: ObjectKey, id: nat, target: Target, errorMsg: string)

  /** `fifo` is what the consumer takes from, `delayed` waits for its back-off to end, `requeues` counts
      rate-limited additions since the last Forget. */
  datatype Queue = Queue(
    fifo: seq<Item>,
    dirty: set<Item>,
    processing: set<Item>,
    delayed: set<Item>,
    requeues: map<Item, nat>,
    nextId: nat)

  const EMPTY_QUEUE := Queue([], {}, {}, {}, map[], 0)

  const MAX_REQUEUES := 5

  function Add(q: Queue, item: Item): Queue
  {
    if item in q.dirty then q
    else if item in q.processing then q.(dirty := q.dirty + {item})
    else q.(dirty := q.dirty + {item}, fifo := q.fifo + [item])
  }

  function Take(q: Queue): Queue
    requires q.fifo != []
  {
    q.(fifo := q.fifo[1..], processing := q.processing + {q.fifo[0]}, dirty := q.dirty - {q.fifo[0]})
  }

  function Done(q: Queue, item: Item): Queue
  {
    q.(processing := q.processing - {item}, fifo := if item in q.dirty then q.fifo + [item] else q.fifo)
  }

  function NumRequeues(q: Queue, item: Item): nat
  {
    if item in q.requeues then q.requeues[item] else 0
  }

  function AddRateLimited(q: Queue, item: Item): Queue
  {
    q.(requeues := q.requeues[item := NumRequeues(q, item) + 1], delayed := q.delayed + {item})
  }

  function Forget(q: Queue, item: Item): Queue
  {
    q.(requeues := q.requeues - {item})
  }

  /** The back-off of a delayed item ends. */
  function Fire(q: Queue, item: Item): Queue
  {
    if item in q.delayed then Add(q.(delayed := q.delayed - {item}), item) else q
  }

  function Enqueue(q: Queue, r: StatusRequest): Queue
  {
    match r
    case ConfigRequest(config, namespace, kind, name, newHash) =>
        Add(q, ConfigItem(config, namespace, kind, name, newHash))
    case TargetRequest(config, target, errorMsg) =>
      Add(q.(nextId := q.nextId + 1), TargetItem(config, q.nextId, target, errorMsg))
  }

  function EnqueueAll(q: Queue, requests: seq<StatusRequest>): Queue
  {
    if requests == [] then q
    else
      var n := |requests| - 1;
      Enqueue(EnqueueAll(q, requests[..n]), requests[n])
  }

  lemma EnqueueLast(q: Queue, requests: seq<StatusRequest>, r: StatusRequest)
    ensures EnqueueAll(q, requests + [r]) == Enqueue(EnqueueAll(q, requests), r)
  {
  }

  lemma {:induction false} EnqueueInTurn(q: Queue, a: seq<StatusRequest>, b: seq<StatusRequest>)
    ensures EnqueueAll(q, a + b) == EnqueueAll(EnqueueAll(q, a), b)
  {
    if b == [] {
      AppendNothing(a);
    } else {
      var n := |b| - 1;
      AppendLast(a, b);
      EnqueueInTurn(q, a, b[..n]);
    }
  }

  /** The queue object the controller holds. */
  class WorkQueue {
    var fifo: seq<Item>
    var dirty: set<Item>
    var processing: set<Item>
    var delayed: set<Item>
    var requeues: map<Item, nat>
    var nextId: nat

    constructor ()
      ensures Value() == EMPTY_QUEUE
    {
      fifo, dirty, processing, delayed, requeues, nextId := [], {}, {}, {}, map[], 0;
    }

    function Value(): Queue
      reads this
    {
      Queue(fifo, dirty, processing, delayed, requeues, nextId)
    }

    method AddItem(item: Item)
      modifies this
      ensures Value() == Add(old(Value()), item)
    {
      if item in dirty {
        return;
      }
      dirty := dirty + {item};
      if item in processing {
        return;
      }
      fifo := fifo + [item];
    }

    method GetItem() returns (item: Item)
      requires fifo != []
      modifies this
      ensures item == old(fifo)[0] && Value() == Take(old(Value()))
    {
      item := fifo[0];
      fifo := fifo[1..];
      processing := processing + {item};
      dirty := dirty - {item};
    }

    method DoneItem(item: Item)
      modifies this
      ensures Value() == Done(old(Value()), item)
    {
      processing := processing - {item};
      if item in dirty {
        fifo := fifo + [item];
      }
    }

    function NumRequeuesOf(item: Item): nat
      reads this
    {
      NumRequeues(Value(), item)
    }

    method AddItemRateLimited(item: Item)
      modifies this
      ensures Value() == AddRateLimited(old(Value()), item)
    {
      requeues := requeues[item := if item in requeues then requeues[item] + 1 else 1];
      delayed := delayed + {item};
    }

    method ForgetItem(item: Item)
      modifies this
      ensures Value() == Forget(old(Value()), item)
    {
      requeues := requeues - {item};
    }

    method EnqueueRequest(r: StatusRequest)
      modifies this
      ensures Value() == Enqueue(old(Value()), r)
    {
      match r
      case ConfigRequest(config, namespace, kind, name, newHash) =>
        AddItem(ConfigItem(config, namespace, kind, name, newHash));
      case TargetRequest(config, target, errorMsg) =>
        var item := TargetItem(config, nextId, target, errorMsg);
        nextId := nextId + 1;
        AddItem(item);
    }
  }
}
