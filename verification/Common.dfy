/** Small vocabulary shared by every module: optional values, results, and searches over sequences. */
module Common {

  datatype Option<+T> = None | Some(value: T)

  datatype Result<+T> = Ok(value: T) | Err(message: string)

  /** The value of a key in a string map; a missing key reads as the empty string, as it does in Go. */
  function Lookup(m: map<string, string>, k: string): string
  {
    if k in m then m[k] else ""
  }

  function FindEntry(m: map<string, string>, k: string): Option<string>
  {
    if k in m then Some(m[k]) else None
  }

  lemma AppendInTurn<T>(a: seq<T>, b: seq<T>, c: seq<T>)
    ensures a + (b + c) == (a + b) + c
  {
  }

  lemma AppendNothing<T>(a: seq<T>)
    ensures a + [] == a
  {
  }

  lemma AppendLast<T>(a: seq<T>, b: seq<T>)
    requires b != []
    ensures var n := |b| - 1; (a + b)[..|a| + n] == a + b[..n] && (a + b)[|a| + n] == b[n]
  {
  }

  /** The elements at these positions. */
  ghost function Pick<T>(xs: seq<T>, positions: seq<nat>): seq<T>
    requires forall k :: 0 <= k < |positions| ==> positions[k] < |xs|
  {
    Images(xs, positions, Identity())
  }

  /** The position of the first element that satisfies `p`, or the length when there is none. */
  function First<T>(xs: seq<T>, p: T -> bool): (i: nat)
    ensures i <= |xs|
    ensures i < |xs| ==> p(xs[i])
    ensures forall j :: 0 <= j < i ==> !p(xs[j])
  {
    if xs == [] || p(xs[0]) then 0 else 1 + First(xs[1..], p)
  }

  /** What a loop that tests positions 0, 1, ..., n-1 in order and appends `g` of the kept elements builds. */
  function Collect<T, U>(xs: seq<T>, n: nat, keep: nat -> bool, g: T -> U): seq<U>
    requires n <= |xs|
  {
    if n == 0 then []
    else
      var before := Collect(xs, n - 1, keep, g);
      if keep(n - 1) then before + [g(xs[n - 1])] else before
  }

  /** The kept positions below n, written without reference to any list. */
  function Kept(n: nat, keep: nat -> bool): (r: seq<nat>)
    ensures forall k :: 0 <= k < |r| ==> r[k] < n
  {
    if n == 0 then []
    else
      var before := Kept(n - 1, keep);
      if keep(n - 1) then before + [n - 1] else before
  }

  /** They are in ascending order, and are all the kept ones. */
  lemma {:induction false} KeptExactly(n: nat, keep: nat -> bool)
    ensures forall i, j :: 0 <= i < j < |Kept(n, keep)| ==> Kept(n, keep)[i] < Kept(n, keep)[j]
    ensures forall i: nat :: i in Kept(n, keep) <==> i < n && keep(i)
  {
    if n == 0 {
    } else {
      KeptExactly(n - 1, keep);
    }
  }

  /** The images of the elements at these positions. */
  ghost function Images<T, U>(xs: seq<T>, positions: seq<nat>, g: T -> U): seq<U>
    requires forall k :: 0 <= k < |positions| ==> positions[k] < |xs|
  {
    seq(|positions|, k requires 0 <= k < |positions| => g(xs[positions[k]]))
  }

  /** The values are those of the elements at these positions, one by one. */
  ghost predicate ValuesAt<T, U>(xs: seq<T>, positions: seq<nat>, g: T -> U, values: seq<U>)
  {
    |values| == |positions| &&
    forall k :: 0 <= k < |positions| ==> positions[k] < |xs| && values[k] == g(xs[positions[k]])
  }

  lemma ValuesAtNext<T, U>(xs: seq<T>, positions: seq<nat>, g: T -> U, values: seq<U>, p: nat)
    requires ValuesAt(xs, positions, g, values) && p < |xs|
    ensures ValuesAt(xs, positions + [p], g, values + [g(xs[p])])
  {
  }

  /** What one more position does to the kept ones and to the values collected. */
  lemma CollectNext<T, U>(xs: seq<T>, n: nat, keep: nat -> bool, g: T -> U)
    requires n < |xs|
    ensures keep(n) ==> Kept(n + 1, keep) == Kept(n, keep) + [n] &&
                        Collect(xs, n + 1, keep, g) == Collect(xs, n, keep, g) + [g(xs[n])]
    ensures !keep(n) ==> Kept(n + 1, keep) == Kept(n, keep) && Collect(xs, n + 1, keep, g) == Collect(xs, n, keep, g)
  {
  }

  lemma CollectAtNext<T, U>(xs: seq<T>, n: nat, keep: nat -> bool, g: T -> U)
    requires n < |xs| && ValuesAt(xs, Kept(n, keep), g, Collect(xs, n, keep, g))
    ensures ValuesAt(xs, Kept(n + 1, keep), g, Collect(xs, n + 1, keep, g))
  {
    CollectNext(xs, n, keep, g);
    if keep(n) {
      ValuesAtNext(xs, Kept(n, keep), g, Collect(xs, n, keep, g), n);
    }
  }

  lemma {:induction false} CollectAt<T, U>(xs: seq<T>, n: nat, keep: nat -> bool, g: T -> U)
    requires n <= |xs|
    ensures ValuesAt(xs, Kept(n, keep), g, Collect(xs, n, keep, g))
  {
    if n == 0 {
    } else {
      CollectAt(xs, n - 1, keep, g);
      CollectAtNext(xs, n - 1, keep, g);
    }
  }

  /** The loop's result holds exactly the images of the kept positions, in their order. */
  lemma CollectIsKept<T, U>(xs: seq<T>, n: nat, keep: nat -> bool, g: T -> U)
    requires n <= |xs|
    ensures Collect(xs, n, keep, g) == Images(xs, Kept(n, keep), g)
  {
    CollectAt(xs, n, keep, g);
  }

  lemma {:induction false} InCollect<T, U>(xs: seq<T>, n: nat, keep: nat -> bool, g: T -> U, y: U)
    requires n <= |xs|
    ensures y in Collect(xs, n, keep, g) <==> exists i :: 0 <= i < n && keep(i) && y == g(xs[i])
  {
    if n == 0 {
    } else {
      InCollect(xs, n - 1, keep, g, y);
    }
  }

  /** Equal decisions keep the same positions. */
  lemma {:induction false} KeptSame(n: nat, keep: nat -> bool, keep': nat -> bool)
    requires forall i: nat :: i < n ==> keep(i) == keep'(i)
    ensures Kept(n, keep) == Kept(n, keep')
  {
    if n == 0 {
    } else {
      KeptSame(n - 1, keep, keep');
    }
  }

  function Identity<T>(): T -> T
  {
    x => x
  }

  /** The decision at a position that only looks at the element there. */
  function At<T>(xs: seq<T>, p: T -> bool): nat -> bool
  {
    (i: nat) => i < |xs| && p(xs[i])
  }

  function Filter<T>(xs: seq<T>, p: T -> bool): seq<T>
  {
    Collect(xs, |xs|, At(xs, p), Identity())
  }

  /** Collecting depends only on the first n elements and decisions. */
  lemma {:induction false} CollectSame<T, U>(xs: seq<T>, ys: seq<T>, n: nat, keep: nat -> bool, keep': nat -> bool,
                                             g: T -> U)
    requires n <= |xs| && n <= |ys| && xs[..n] == ys[..n]
    requires forall i: nat :: i < n ==> keep(i) == keep'(i)
    ensures Collect(xs, n, keep, g) == Collect(ys, n, keep', g)
  {
    if n == 0 {
    } else {
      assert xs[..n][n - 1] == ys[..n][n - 1];
      assert xs[..n - 1] == xs[..n][..n - 1] && ys[..n - 1] == ys[..n][..n - 1];
      CollectSame(xs, ys, n - 1, keep, keep', g);
    }
  }

  lemma FilterAppend<T>(xs: seq<T>, x: T, p: T -> bool)
    ensures Filter(xs + [x], p) == Filter(xs, p) + (if p(x) then [x] else [])
  {
    var ys := xs + [x];
    assert xs[..|xs|] == ys[..|xs|];
    CollectSame(xs, ys, |xs|, At(xs, p), At(ys, p), Identity());
  }

  /** Two filters in a row keep what passes both. */
  lemma {:induction false} FilterCollected<T>(xs: seq<T>, n: nat, keep: nat -> bool, p: T -> bool, both: nat -> bool)
    requires n <= |xs|
    requires forall i: nat :: i < n ==> both(i) == (keep(i) && p(xs[i]))
    ensures Filter(Collect(xs, n, keep, Identity()), p) == Collect(xs, n, both, Identity())
  {
    if n == 0 {
    } else {
      FilterCollected(xs, n - 1, keep, p, both);
      if keep(n - 1) {
        FilterAppend(Collect(xs, n - 1, keep, Identity()), xs[n - 1], p);
      } else {
        assert Collect(xs, n, keep, Identity()) == Collect(xs, n - 1, keep, Identity());
      }
    }
  }
}
