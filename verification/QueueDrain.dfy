/** The work queue and its retry rule: what every operation keeps, and why the worker drains. */
module QueueDrain {
  import opened Queue
  import opened Status

  /** Items waiting for the consumer are in line once; every retry counter belongs to a live item and stays
      within the limit. */
  ghost predicate WellFormed(q: Queue)
  {
    && (forall i, j :: 0 <= i < j < |q.fifo| ==> q.fifo[i] != q.fifo[j])
    && (forall item :: item in q.fifo <==> item in q.dirty && item !in q.processing)
    && CountersLive(q)
  }

  ghost predicate CountersLive(q: Queue)
  {
    forall item :: item in q.requeues ==> q.requeues[item] <= MAX_REQUEUES && Live(q, item)
  }

  predicate Live(q: Queue, item: Item)
  {
    item in q.dirty || item in q.processing || item in q.delayed
  }

  lemma AddKeeps(q: Queue, item: Item)
    requires WellFormed(q)
    ensures WellFormed(Add(q, item))
  {
  }

  lemma TakeKeeps(q: Queue)
    requires WellFormed(q) && q.fifo != []
    ensures WellFormed(Take(q)) && q.fifo[0] in q.dirty && q.fifo[0] !in q.processing
  {
  }

  lemma FinishKeeps(q: Queue, item: Item, failed: bool)
    requires WellFormed(q) && item in q.processing
    ensures WellFormed(Finish(q, item, failed))
  {
  }

  lemma FireKeeps(q: Queue, item: Item)
    requires WellFormed(q)
    ensures WellFormed(Fire(q, item))
  {
  }

  /* ---- The measure ---- */

  ghost function Total(m: map<Item, nat>): nat
  {
    if m == map[] then 0 else var k :| k in m; m[k] + Total(m - {k})
  }

  lemma {:induction false} TotalSplits(m: map<Item, nat>, k: Item)
    requires k in m
    ensures Total(m) == m[k] + Total(m - {k})
    decreases |m|
  {
    var p :| p in m && Total(m) == m[p] + Total(m - {p});
    if p != k {
      TotalSplits(m - {p}, k);
      TotalSplits(m - {k}, p);
      assert m - {p} - {k} == m - {k} - {p};
    }
  }

  lemma {:induction false} TotalBounded(m: map<Item, nat>)
    requires forall k :: k in m ==> m[k] <= MAX_REQUEUES
    ensures Total(m) <= MAX_REQUEUES * |m|
    decreases |m|
  {
    if m == map[] {
    } else {
      var k :| k in m && Total(m) == m[k] + Total(m - {k});
      assert m.Keys == (m - {k}).Keys + {k};
      assert |m| == |m - {k}| + 1;
      TotalBounded(m - {k});
    }
  }

  lemma TotalUpdated(m: map<Item, nat>, k: Item, v: nat)
    ensures Total(m[k := v]) + (if k in m then m[k] else 0) == Total(m) + v
    ensures Total(m - {k}) + (if k in m then m[k] else 0) == Total(m)
  {
    TotalSplits(m[k := v], k);
    assert m[k := v] - {k} == m - {k};
    if k in m {
      TotalSplits(m, k);
    } else {
      assert m - {k} == m;
    }
  }

  function Pending(q: Queue): nat
  {
    |q.dirty| + |q.processing| + |q.delayed|
  }

  /** Six attempts for every pending copy, less the retries already made. */
  ghost function Attempts(q: Queue): int
  {
    (MAX_REQUEUES + 1) * Pending(q) - Total(q.requeues)
  }

  /** Weighs attempts over moves between the parts of the queue. */
  ghost function Work(q: Queue): int
  {
    3 * Attempts(q) + 2 * |q.delayed| + |q.dirty|
  }

  lemma UnionSize(a: set<Item>, b: set<Item>, c: set<Item>)
    ensures |a + b + c| <= |a| + |b| + |c|
  {
  }

  lemma SubsetSize(a: set<Item>, b: set<Item>)
    requires a <= b
    ensures |a| <= |b|
  {
    assert b == a + (b - a);
    assert |b| == |a| + |b - a|;
  }

  /** The number of attempts left is positive as long as anything is pending. */
  lemma AttemptsLeft(q: Queue)
    requires WellFormed(q)
    ensures Attempts(q) >= Pending(q) && Work(q) >= 0
  {
    TotalBounded(q.requeues);
    SubsetSize(q.requeues.Keys, q.dirty + q.processing + q.delayed);
    UnionSize(q.dirty, q.processing, q.delayed);
    assert |q.requeues| == |q.requeues.Keys|;
  }

  lemma TakeWorks(q: Queue)
    requires WellFormed(q) && q.fifo != []
    ensures Attempts(Take(q)) == Attempts(q) && Work(Take(q)) < Work(q)
  {
  }

  /** Every processed item, whether it succeeds, is retried or is given up, uses up at least one attempt. */
  lemma FinishWorks(q: Queue, item: Item, failed: bool)
    requires WellFormed(q) && item in q.processing
    ensures Attempts(Finish(q, item, failed)) < Attempts(q)
    ensures Work(Finish(q, item, failed)) < Work(q)
  {
    var retries := NumRequeues(q, item);
    TotalUpdated(q.requeues, item, retries + 1);
    assert |q.processing - {item}| == |q.processing| - 1;
    assert |q.delayed + {item}| <= |q.delayed| + 1;
    assert item in q.requeues ==> q.requeues[item] <= MAX_REQUEUES;
  }

  lemma FireWorks(q: Queue, item: Item)
    requires WellFormed(q) && item in q.delayed
    ensures Attempts(Fire(q, item)) <= Attempts(q) && Work(Fire(q, item)) < Work(q)
  {
  }
}
