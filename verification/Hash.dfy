/** internal/pkg/util/hash.go: change detection hashes a canonical encoding of the data. */
module Hash {
  import opened Common
  import opened Helpers
  import opened Kube

  const COLON: byte := 58
  const SEMICOLON: byte := 59

  /* ---- The order of Go strings ---- */

  predicate Less(a: Bytes, b: Bytes)
  {
    b != [] && (a == [] || a[0] < b[0] || (a[0] == b[0] && Less(a[1..], b[1..])))
  }

  lemma {:induction false} LessTransitive(a: Bytes, b: Bytes, c: Bytes)
    requires Less(a, b) && Less(b, c)
    ensures Less(a, c)
  {
    if a != [] && a[0] == b[0] == c[0] {
      LessTransitive(a[1..], b[1..], c[1..]);
    }
  }

  lemma {:induction false} LessTotal(a: Bytes, b: Bytes)
    ensures a == b || Less(a, b) || Less(b, a)
    ensures !(Less(a, b) && Less(b, a)) && !Less(a, a)
  {
    if a == [] {
    } else {
      LessTotal(a[1..], a[1..]);
      if b != [] {
        LessTotal(a[1..], b[1..]);
        assert a == [a[0]] + a[1..] && b == [b[0]] + b[1..];
      }
    }
  }

  /* ---- sort.Strings ---- */

  ghost predicate Ascending(keys: seq<Bytes>)
  {
    forall i, j :: 0 <= i < j < |keys| ==> Less(keys[i], keys[j])
  }

  function KeySet(keys: seq<Bytes>): set<Bytes>
  {
    set k | k in keys
  }

  function Insert(k: Bytes, keys: seq<Bytes>): seq<Bytes>
  {
    if keys == [] then [k]
    else if Less(k, keys[0]) then [k] + keys
    else [keys[0]] + Insert(k, keys[1..])
  }

  /** sort.Strings on keys without repetition. */
  function SortStrings(keys: seq<Bytes>): seq<Bytes>
  {
    if keys == [] then [] else Insert(keys[0], SortStrings(keys[1..]))
  }

  lemma AscendingCons(k: Bytes, keys: seq<Bytes>)
    requires Ascending(keys) && forall x :: x in keys ==> Less(k, x)
    ensures Ascending([k] + keys)
  {
  }

  lemma {:induction false} InsertAdds(k: Bytes, keys: seq<Bytes>)
    ensures KeySet(Insert(k, keys)) == KeySet(keys) + {k}
  {
    if keys == [] {
    } else {
      InsertAdds(k, keys[1..]);
      assert keys == [keys[0]] + keys[1..];
      assert KeySet(keys) == {keys[0]} + KeySet(keys[1..]);
      assert KeySet([keys[0]] + Insert(k, keys[1..])) == {keys[0]} + KeySet(Insert(k, keys[1..]));
      assert KeySet([k] + keys) == {k} + KeySet(keys);
    }
  }

  lemma {:induction false} InsertSorts(k: Bytes, keys: seq<Bytes>)
    requires Ascending(keys) && k !in keys
    ensures Ascending(Insert(k, keys))
  {
    if keys == [] {
    } else {
      LessTotal(k, keys[0]);
      if Less(k, keys[0]) {
        forall i | 0 < i < |keys| ensures Less(k, keys[i]) { LessTransitive(k, keys[0], keys[i]); }
        AscendingCons(k, keys);
      } else {
        InsertSorts(k, keys[1..]);
        InsertAdds(k, keys[1..]);
        forall x | x in Insert(k, keys[1..]) ensures Less(keys[0], x) {
          assert x in KeySet(Insert(k, keys[1..]));
        }
        AscendingCons(keys[0], Insert(k, keys[1..]));
      }
    }
  }

  lemma {:induction false} SortStringsSorts(keys: seq<Bytes>)
    requires forall i, j :: 0 <= i < j < |keys| ==> keys[i] != keys[j]
    ensures Ascending(SortStrings(keys)) && KeySet(SortStrings(keys)) == KeySet(keys)
  {
    if keys == [] {
    } else {
      SortStringsSorts(keys[1..]);
      assert keys == [keys[0]] + keys[1..];
      assert keys[0] !in KeySet(SortStrings(keys[1..]));
      InsertSorts(keys[0], SortStrings(keys[1..]));
      InsertAdds(keys[0], SortStrings(keys[1..]));
    }
  }

  /** There is only one ascending list of a set of keys: the digest input does not depend on map order. */
  lemma {:induction false} AscendingIsUnique(a: seq<Bytes>, b: seq<Bytes>)
    requires Ascending(a) && Ascending(b) && KeySet(a) == KeySet(b)
    ensures a == b
  {
    assert a != [] ==> a[0] in KeySet(a);
    assert b != [] ==> b[0] in KeySet(b);
    if a != [] && b != [] {
      assert a[0] in KeySet(b) && b[0] in KeySet(a);
      var i :| 0 <= i < |b| && b[i] == a[0];
      var j :| 0 <= j < |a| && a[j] == b[0];
      LessTotal(a[0], b[0]);
      forall k | k in KeySet(a[1..]) + KeySet(b[1..]) ensures k in KeySet(a[1..]) && k in KeySet(b[1..]) {
        assert k in KeySet(a) && k in KeySet(b);
        LessTotal(a[0], a[0]);
      }
      AscendingIsUnique(a[1..], b[1..]);
    }
  }

  /** The ascending list of a finite set of keys. */
  ghost function SortedKeys(keys: set<Bytes>): seq<Bytes>
  {
    if keys == {} then [] else var k :| k in keys; Insert(k, SortedKeys(keys - {k}))
  }

  lemma {:induction false} SortedKeysSorts(keys: set<Bytes>)
    ensures Ascending(SortedKeys(keys)) && KeySet(SortedKeys(keys)) == keys
  {
    if keys == {} {
    } else {
      var k :| k in keys && SortedKeys(keys) == Insert(k, SortedKeys(keys - {k}));
      SortedKeysSorts(keys - {k});
      assert k !in KeySet(SortedKeys(keys - {k}));
      InsertSorts(k, SortedKeys(keys - {k}));
      InsertAdds(k, SortedKeys(keys - {k}));
    }
  }

  lemma SortedKeysAre(keys: seq<Bytes>)
    requires Ascending(keys)
    ensures SortedKeys(KeySet(keys)) == keys
  {
    SortedKeysSorts(KeySet(keys));
    AscendingIsUnique(keys, SortedKeys(KeySet(keys)));
  }

  /* ---- The digest input ---- */

  type Pair = (Bytes, Bytes)

  function EncodePair(p: Pair): Bytes
  {
    p.0 + [COLON] + p.1 + [SEMICOLON]
  }

  function Encode(pairs: seq<Pair>): Bytes
  {
    if pairs == [] then [] else EncodePair(pairs[0]) + Encode(pairs[1..])
  }

  lemma {:induction false} EncodeAppend(pairs: seq<Pair>, p: Pair)
    ensures Encode(pairs + [p]) == Encode(pairs) + EncodePair(p)
  {
    if pairs == [] {
    } else {
      EncodeAppend(pairs[1..], p);
      assert (pairs + [p])[1..] == pairs[1..] + [p];
    }
  }

  ghost function PairsOf(data: map<Bytes, Bytes>, keys: seq<Bytes>): seq<Pair>
  {
    seq(|keys|, i requires 0 <= i < |keys| => (keys[i], if keys[i] in data then data[keys[i]] else []))
  }

  /** The key-value pairs of the data in ascending key order. */
  ghost function Canonical(data: map<Bytes, Bytes>): seq<Pair>
  {
    PairsOf(data, SortedKeys(data.Keys))
  }

  lemma EncodeNext(pairs: seq<Pair>, i: nat)
    requires i < |pairs|
    ensures var (k, v) := pairs[i];
            Encode(pairs[..i + 1]) == Encode(pairs[..i]) + k + [COLON] + v + [SEMICOLON]
  {
    assert pairs[..i + 1] == pairs[..i] + [pairs[i]];
    EncodeAppend(pairs[..i], pairs[i]);
    var (k, v) := pairs[i];
    assert Encode(pairs[..i]) + (k + [COLON] + v + [SEMICOLON]) == Encode(pairs[..i]) + k + [COLON] + v + [SEMICOLON];
  }

  lemma InCanonical(data: map<Bytes, Bytes>, k: Bytes)
    ensures k in data <==> exists v :: (k, v) in Canonical(data)
    ensures k in data ==> (k, data[k]) in Canonical(data)
    ensures forall p :: p in Canonical(data) ==> p.0 in data && p.1 == data[p.0]
  {
    var keys := SortedKeys(data.Keys);
    SortedKeysSorts(data.Keys);
    assert forall q :: q in keys ==> q in KeySet(keys);
    if k in data {
      assert k in KeySet(keys);
      var i :| 0 <= i < |keys| && keys[i] == k;
      assert Canonical(data)[i] == (k, data[k]);
    }
  }

  lemma CanonicalDetermines(a: map<Bytes, Bytes>, b: map<Bytes, Bytes>)
    requires Canonical(a) == Canonical(b)
    ensures a == b
  {
    forall k ensures k in a <==> k in b ensures k in a ==> k in b && a[k] == b[k] {
      InCanonical(a, k);
      InCanonical(b, k);
    }
  }

  ghost function HashOf(x: Platform, data: map<Bytes, Bytes>): string
  {
    if data == map[] then "" else x.sha256(Encode(Canonical(data)))
  }

  /** sha256.New: collects what is written and digests it. */
  class Hasher {
    var written: Bytes

    constructor ()
      ensures written == []
    {
      written := [];
    }

    method Write(b: Bytes)
      modifies this
      ensures written == old(written) + b
    {
      written := written + b;
    }
  }

  /** The keys of a map, in whatever order it yields them, sorted. */
  method CollectSortedKeys(data: map<Bytes, Bytes>) returns (keys: seq<Bytes>)
    ensures keys == SortedKeys(data.Keys) && forall k :: k in keys ==> k in data
  {
    keys := [];
    var rest := data.Keys;
    while rest != {}
      invariant rest <= data.Keys && KeySet(keys) == data.Keys - rest
      invariant forall i, j :: 0 <= i < j < |keys| ==> keys[i] != keys[j]
      decreases rest
    {
      var k :| k in rest;
      assert k !in KeySet(keys);
      assert KeySet(keys + [k]) == KeySet(keys) + {k};
      keys := keys + [k];
      rest := rest - {k};
    }
    SortStringsSorts(keys);
    assert KeySet(SortStrings(keys)) == data.Keys;
    keys := SortStrings(keys);
    SortedKeysAre(keys);
    assert forall k :: k in keys ==> k in KeySet(keys);
  }

  /** The digest is the same in whatever order the map yields its keys. */
  method CalculateHash(x: Platform, data: map<Bytes, Bytes>) returns (hash: string)
    ensures hash == HashOf(x, data)
  {
    if |data| == 0 {
      return "";
    }
    var keys := CollectSortedKeys(data);
    ghost var pairs := PairsOf(data, keys);
    var hasher := new Hasher();
    for i := 0 to |keys|
      invariant hasher.written == Encode(pairs[..i])
    {
      EncodeNext(pairs, i);
      hasher.Write(keys[i]);
      hasher.Write([COLON]);
      hasher.Write(data[keys[i]]);
      hasher.Write([SEMICOLON]);
    }
    assert pairs[..|keys|] == pairs;
    return x.sha256(hasher.written);
  }

  /** ConfigMap text and bytes in one map; bytes win. */
  method MergeDataMaps(stringData: map<Bytes, Bytes>, binaryData: map<Bytes, Bytes>) returns (result: map<Bytes, Bytes>)
    ensures result == stringData + binaryData
  {
    result := map[];
    var rest := stringData.Keys;
    while rest != {}
      invariant rest <= stringData.Keys && result == stringData - rest
      decreases rest
    {
      var k :| k in rest;
      result := result[k := stringData[k]];
      rest := rest - {k};
    }
    rest := binaryData.Keys;
    while rest != {}
      invariant rest <= binaryData.Keys && result == stringData + (binaryData - rest)
      decreases rest
    {
      var k :| k in rest;
      result := result[k := binaryData[k]];
      rest := rest - {k};
    }
  }

  function DataOf(r: Resource): map<Bytes, Bytes>
  {
    if r.kind == KIND_SECRET then r.data else r.data + r.binaryData
  }

  ghost function ResourceHash(x: Platform, r: Resource): string
  {
    HashOf(x, DataOf(r))
  }

  method GetResourceDataAndHash(x: Platform, r: Resource) returns (hash: Result<string>)
    ensures hash == if IsResourceKind(r.kind) then Ok(ResourceHash(x, r))
            else Err("unsupported resource type: " + r.kind)
  {
    if r.kind == KIND_SECRET {
      var h := CalculateHash(x, r.data);
      return Ok(h);
    } else if r.kind == KIND_CONFIGMAP {
      var data := MergeDataMaps(r.data, r.binaryData);
      var h := CalculateHash(x, data);
      return Ok(h);
    }
    return Err("unsupported resource type: " + r.kind);
  }

  /* ---- What the digest input tells ---- */

  /** The hash is empty exactly for empty data, also for a ConfigMap with two maps. */
  lemma HashEmptyIffNoData(x: Platform, r: Resource)
    requires x.Lawful() && IsResourceKind(r.kind)
    ensures ResourceHash(x, r) == "" <==> r.data == map[] && (r.kind == KIND_CONFIGMAP ==> r.binaryData == map[])
  {
  }

  /** Reads up to the first delimiter: what comes before it and what comes after. */
  function ReadTo(s: Bytes, delimiter: byte): Option<Pair>
  {
    var i := First(s, (b: byte) => b == delimiter);
    if i < |s| then Some((s[..i], s[i + 1..])) else None
  }

  /** Reads a digest input back: a key up to ':', a value up to ';', and so on. */
  function Decode(s: Bytes): Option<seq<Pair>>
    decreases |s|
  {
    if s == [] then Some([])
    else match ReadTo(s, COLON) {
      case None => None
      case Some((key, afterKey)) =>
        match ReadTo(afterKey, SEMICOLON) {
          case None => None
          case Some((value, afterValue)) =>
            match Decode(afterValue) {
              case None => None
              case Some(pairs) => Some([(key, value)] + pairs)
            }
        }
    }
  }

  predicate Plain(p: Pair)
  {
    COLON !in p.0 && SEMICOLON !in p.1
  }

  lemma ReadBack(a: Bytes, delimiter: byte, rest: Bytes)
    requires delimiter !in a
    ensures ReadTo(a + [delimiter] + rest, delimiter) == Some((a, rest))
  {
    var s := a + [delimiter] + rest;
    var i := First(s, (b: byte) => b == delimiter);
    assert s[|a|] == delimiter;
    assert forall j :: 0 <= j < |a| ==> s[j] == a[j];
    assert i == |a|;
    assert s[..i] == a && s[i + 1..] == rest;
  }

  lemma {:induction false} DecodedArePlain(s: Bytes)
    requires Decode(s).Some?
    ensures forall p :: p in Decode(s).value ==> Plain(p)
    decreases |s|
  {
    if s == [] {
    } else {
      var (key, afterKey) := ReadTo(s, COLON).value;
      var (value, afterValue) := ReadTo(afterKey, SEMICOLON).value;
      DecodedArePlain(afterValue);
    }
  }

  lemma DecodeStep(s: Bytes, key: Bytes, afterKey: Bytes, value: Bytes, tail: Bytes)
    requires ReadTo(s, COLON) == Some((key, afterKey)) && ReadTo(afterKey, SEMICOLON) == Some((value, tail))
    requires Decode(tail).Some?
    ensures Decode(s) == Some([(key, value)] + Decode(tail).value)
  {
  }

  lemma EncodePairSplit(p: Pair, tail: Bytes)
    ensures EncodePair(p) + tail == p.0 + [COLON] + (p.1 + [SEMICOLON] + tail)
  {
  }

  lemma DecodeOne(p: Pair, tail: Bytes)
    requires Plain(p) && Decode(tail).Some?
    ensures Decode(EncodePair(p) + tail) == Some([p] + Decode(tail).value)
  {
    var afterKey := p.1 + [SEMICOLON] + tail;
    EncodePairSplit(p, tail);
    ReadBack(p.0, COLON, afterKey);
    ReadBack(p.1, SEMICOLON, tail);
    DecodeStep(EncodePair(p) + tail, p.0, afterKey, p.1, tail);
  }

  lemma {:induction false} DecodePlain(pairs: seq<Pair>)
    requires forall p :: p in pairs ==> Plain(p)
    ensures Decode(Encode(pairs)) == Some(pairs)
  {
    if pairs == [] {
    } else {
      DecodePlain(pairs[1..]);
      DecodeOne(pairs[0], Encode(pairs[1..]));
      assert pairs == [pairs[0]] + pairs[1..];
    }
  }

  /** The digest input reads back exactly when no key holds a ':' and no value a ';'. */
  lemma DecodeAfterEncode(pairs: seq<Pair>)
    ensures Decode(Encode(pairs)) == Some(pairs) <==> forall p :: p in pairs ==> Plain(p)
  {
    if forall p :: p in pairs ==> Plain(p) {
      DecodePlain(pairs);
    } else if Decode(Encode(pairs)) == Some(pairs) {
      DecodedArePlain(Encode(pairs));
    }
  }

  ghost predicate PlainData(data: map<Bytes, Bytes>)
  {
    forall k :: k in data ==> Plain((k, data[k]))
  }

  /** On data without those characters, equal hashes mean equal data or a SHA-256 collision. */
  lemma HashIdentifiesPlainData(x: Platform, a: map<Bytes, Bytes>, b: map<Bytes, Bytes>)
    requires x.Lawful() && PlainData(a) && PlainData(b)
    requires HashOf(x, a) == HashOf(x, b)
    ensures a == b || (Encode(Canonical(a)) != Encode(Canonical(b)) &&
                       x.sha256(Encode(Canonical(a))) == x.sha256(Encode(Canonical(b))))
  {
    if a != map[] && b != map[] {
      InCanonical(a, []);
      InCanonical(b, []);
      DecodePlain(Canonical(a));
      DecodePlain(Canonical(b));
      if Canonical(a) == Canonical(b) {
        CanonicalDetermines(a, b);
      }
    }
  }

  /** The data with its second entry folded into the value of the first. */
  ghost function Fold(data: map<Bytes, Bytes>, first: Bytes, second: Bytes): map<Bytes, Bytes>
    requires first in data && second in data
  {
    (data - {second})[first := data[first] + [SEMICOLON] + second + [COLON] + data[second]]
  }

  lemma SortedWithoutSecond(keys: seq<Bytes>)
    requires Ascending(keys) && |keys| >= 2
    ensures SortedKeys(KeySet(keys) - {keys[1]}) == [keys[0]] + keys[2..]
    ensures forall i :: 0 <= i < |keys| && i != 1 ==> keys[i] != keys[1]
    ensures forall i :: 0 < i < |keys| ==> keys[i] != keys[0]
  {
    var fewer := [keys[0]] + keys[2..];
    forall q ensures q in KeySet(fewer) <==> q in KeySet(keys) - {keys[1]} {
      LessTotal(q, q);
      assert keys == [keys[0], keys[1]] + keys[2..];
    }
    forall i | 0 <= i < |keys| ensures !Less(keys[i], keys[i]) { LessTotal(keys[i], keys[i]); }
    assert KeySet(fewer) == KeySet(keys) - {keys[1]};
    SortedKeysAre(fewer);
  }

  lemma EncodeFolded(was: seq<Pair>, now: seq<Pair>)
    requires |was| >= 2 && |now| == |was| - 1 && was[2..] == now[1..]
    requires now[0] == (was[0].0, was[0].1 + [SEMICOLON] + was[1].0 + [COLON] + was[1].1)
    ensures Encode(now) == Encode(was)
  {
  }

  lemma PairsFolded(data: map<Bytes, Bytes>, keys: seq<Bytes>)
    requires |keys| >= 2 && keys[0] in data && keys[1] in data
    requires forall i :: 0 <= i < |keys| && i != 1 ==> keys[i] != keys[1]
    requires forall i :: 0 < i < |keys| ==> keys[i] != keys[0]
    ensures var other := Fold(data, keys[0], keys[1]);
            Encode(PairsOf(other, [keys[0]] + keys[2..])) == Encode(PairsOf(data, keys))
  {
    var other := Fold(data, keys[0], keys[1]);
    var was, now := PairsOf(data, keys), PairsOf(other, [keys[0]] + keys[2..]);
    assert was[2..] == now[1..];
    EncodeFolded(was, now);
  }

  /** Without that restriction it fails for every map with two keys or more: folding the second entry into
      the first one's value gives different data with the same digest input. */
  lemma FoldedEntryCollides(x: Platform, data: map<Bytes, Bytes>) returns (other: map<Bytes, Bytes>)
    requires |data| >= 2
    ensures other != data && |other| == |data| - 1 && HashOf(x, other) == HashOf(x, data)
    ensures Encode(Canonical(other)) == Encode(Canonical(data)) && other.Keys <= data.Keys
  {
    var keys := SortedKeys(data.Keys);
    SortedKeysSorts(data.Keys);
    KeySetSize(keys);
    assert keys[0] in KeySet(keys) && keys[1] in KeySet(keys);
    SortedWithoutSecond(keys);
    other := Fold(data, keys[0], keys[1]);
    assert other.Keys == data.Keys - {keys[1]};
    PairsFolded(data, keys);
  }

  lemma {:induction false} KeySetSize(keys: seq<Bytes>)
    requires Ascending(keys)
    ensures |KeySet(keys)| == |keys|
  {
    if keys == [] {
    } else {
      KeySetSize(keys[1..]);
      LessTotal(keys[0], keys[0]);
      assert keys == [keys[0]] + keys[1..];
      assert KeySet(keys) == {keys[0]} + KeySet(keys[1..]);
    }
  }

  /* ---- Exactly which digest inputs are ambiguous ---- */

  function Colons(s: Bytes): nat
  {
    multiset(s)[COLON]
  }

  lemma {:induction false} ColonsCountPairs(pairs: seq<Pair>)
    ensures Colons(Encode(pairs)) >= |pairs|
  {
    if pairs == [] {
    } else {
      ColonsCountPairs(pairs[1..]);
      assert COLON in EncodePair(pairs[0]);
    }
  }

  lemma SingleKey(k: Bytes, v: Bytes)
    ensures Canonical(map[k := v]) == [(k, v)]
    ensures Encode(Canonical(map[k := v])) == k + [COLON] + v + [SEMICOLON]
  {
    assert KeySet([k]) == {k} == map[k := v].Keys;
    SortedKeysAre([k]);
    assert Encode([(k, v)][1..]) == [];
  }

  lemma EncodeSingle(p: Pair)
    ensures Encode([p]) == p.0 + [COLON] + p.1 + [SEMICOLON]
  {
    assert Encode([p][1..]) == [];
  }

  /** A key that ends later has the other key's colon in it. */
  lemma LongerKeyHasColon(p: Pair, q: Pair)
    requires Encode([p]) == Encode([q]) && |p.0| < |q.0|
    ensures Colons(Encode([q])) >= 2
  {
    EncodeSingle(p);
    EncodeSingle(q);
    assert Encode([p])[|p.0|] == COLON;
    assert q.0[|p.0|] == COLON;
    assert COLON in q.0;
    assert Colons(Encode([q])) == Colons(q.0) + 1 + Colons(q.1) + Colons([SEMICOLON]);
  }

  lemma SingleParts(p: Pair)
    ensures var s := Encode([p]); |s| == |p.0| + |p.1| + 2 && s[..|p.0|] == p.0 && s[|p.0| + 1..|s| - 1] == p.1
  {
    EncodeSingle(p);
  }

  lemma EqualKeysDecide(p: Pair, q: Pair)
    requires Encode([p]) == Encode([q]) && |p.0| == |q.0|
    ensures p == q
  {
    SingleParts(p);
    SingleParts(q);
  }

  lemma SinglePairIsKnown(p: Pair, q: Pair)
    requires Encode([p]) == Encode([q]) && Colons(Encode([p])) < 2
    ensures p == q
  {
    if |p.0| < |q.0| {
      LongerKeyHasColon(p, q);
    } else if |q.0| < |p.0| {
      LongerKeyHasColon(q, p);
    } else {
      EqualKeysDecide(p, q);
    }
  }

  lemma FewColonsAreKnown(a: map<Bytes, Bytes>, b: map<Bytes, Bytes>)
    requires Encode(Canonical(a)) == Encode(Canonical(b)) && Colons(Encode(Canonical(a))) < 2
    ensures a == b
  {
    var p, q := Canonical(a), Canonical(b);
    ColonsCountPairs(p);
    ColonsCountPairs(q);
    if p == [] || q == [] {
      assert p == q;
    } else {
      assert p == [p[0]] && q == [q[0]];
      SinglePairIsKnown(p[0], q[0]);
    }
    CanonicalDetermines(a, b);
  }

  /** One key and value can be cut at any colon. */
  lemma CutElsewhere(k: Bytes, v: Bytes) returns (other: map<Bytes, Bytes>)
    requires COLON in k || COLON in v
    ensures other != map[k := v] && Encode(Canonical(other)) == Encode(Canonical(map[k := v]))
  {
    var k', v';
    if COLON in v {
      var j :| 0 <= j < |v| && v[j] == COLON;
      k', v' := k + [COLON] + v[..j], v[j + 1..];
      assert v == v[..j] + [COLON] + v[j + 1..];
    } else {
      var j :| 0 <= j < |k| && k[j] == COLON;
      k', v' := k[..j], k[j + 1..] + [COLON] + v;
      assert k == k[..j] + [COLON] + k[j + 1..];
    }
    other := map[k' := v'];
    assert |k'| != |k|;
    assert k' in other && k' !in map[k := v];
    SingleKey(k, v);
    SingleKey(k', v');
    assert k' + [COLON] + v' == k + [COLON] + v;
  }

  lemma OneKey(data: map<Bytes, Bytes>)
    requires |data| == 1
    ensures exists k :: k in data && data == map[k := data[k]]
  {
    var k :| k in data;
    assert data.Keys == {k} + (data.Keys - {k});
    assert |data| == |data.Keys| == 1 + |data.Keys - {k}|;
    assert data.Keys == {k};
    assert data == map[k := data[k]];
  }

  lemma NoData(data: map<Bytes, Bytes>)
    requires |data| == 0
    ensures Encode(Canonical(data)) == []
  {
    assert data.Keys == {};
  }

  lemma ManyColonsCollide(x: Platform, data: map<Bytes, Bytes>) returns (other: map<Bytes, Bytes>)
    requires Colons(Encode(Canonical(data))) >= 2
    ensures other != data && Encode(Canonical(other)) == Encode(Canonical(data))
  {
    if |data| >= 2 {
      other := FoldedEntryCollides(x, data);
    } else if |data| == 0 {
      NoData(data);
      assert false;
    } else {
      OneKey(data);
      var k :| k in data && data == map[k := data[k]];
      SingleKey(k, data[k]);
      assert Colons(Encode(Canonical(data))) == Colons(k) + 1 + Colons(data[k]) + Colons([SEMICOLON]);
      other := CutElsewhere(k, data[k]);
    }
  }

  /** Among arbitrary maps, data shares its digest input with other data if and only if the input contains two or more
      colons. */
  lemma SharedExactly(x: Platform, data: map<Bytes, Bytes>)
    ensures (exists other :: other != data && Encode(Canonical(other)) == Encode(Canonical(data))) <==>
            Colons(Encode(Canonical(data))) >= 2
  {
    if Colons(Encode(Canonical(data))) >= 2 {
      var other := ManyColonsCollide(x, data);
    } else if other :| other != data && Encode(Canonical(other)) == Encode(Canonical(data)) {
      FewColonsAreKnown(data, other);
      assert false;
    }
  }

  /* ---- The same among data with keys of a given form ---- */

  ghost predicate KeysAllowed(allowed: Bytes -> bool, data: map<Bytes, Bytes>)
  {
    forall k :: k in data ==> allowed(k)
  }

  /** The value of a single entry reads as a value, a ';', a greater allowed key, a ':' and another value. */
  ghost predicate Splits(allowed: Bytes -> bool, k: Bytes, v: Bytes, i: nat, j: nat)
  {
    i < j < |v| && v[i] == SEMICOLON && v[j] == COLON && allowed(v[i + 1..j]) && Less(k, v[i + 1..j])
  }

  lemma CanonicalKeys(data: map<Bytes, Bytes>, i: nat)
    requires i < |Canonical(data)|
    ensures Canonical(data)[i].0 in data
    ensures i > 0 ==> Less(Canonical(data)[i - 1].0, Canonical(data)[i].0)
  {
    SortedKeysSorts(data.Keys);
    assert SortedKeys(data.Keys)[i] in KeySet(SortedKeys(data.Keys));
  }

  lemma EncodeFirst(pairs: seq<Pair>)
    requires pairs != []
    ensures Encode(pairs) == pairs[0].0 + [COLON] + (pairs[0].1 + [SEMICOLON] + Encode(pairs[1..]))
  {
    EncodePairSplit(pairs[0], Encode(pairs[1..]));
  }

  /** A colon-free first key is read off the digest input. */
  lemma FirstKeyIsKnown(p: seq<Pair>, q: seq<Pair>)
    requires p != [] && q != [] && COLON !in p[0].0 && COLON !in q[0].0
    requires Encode(p) == Encode(q)
    ensures p[0].0 == q[0].0
    ensures p[0].1 + [SEMICOLON] + Encode(p[1..]) == q[0].1 + [SEMICOLON] + Encode(q[1..])
  {
    EncodeFirst(p);
    EncodeFirst(q);
    ReadBack(p[0].0, COLON, p[0].1 + [SEMICOLON] + Encode(p[1..]));
    ReadBack(q[0].0, COLON, q[0].1 + [SEMICOLON] + Encode(q[1..]));
  }

  lemma ValueSplits(allowed: Bytes -> bool, k: Bytes, v: Bytes, a: Bytes, l: Bytes, rest: Bytes)
    requires v + [SEMICOLON] == a + [SEMICOLON] + (l + [COLON] + rest) && rest != []
    requires allowed(l) && Less(k, l)
    ensures Splits(allowed, k, v, |a|, |a| + 1 + |l|)
  {
    var s, i, j := v + [SEMICOLON], |a|, |a| + 1 + |l|;
    assert |s| == j + 1 + |rest|;
    assert s[i] == SEMICOLON && s[j] == COLON;
    assert s[i + 1..j] == l && v[i + 1..j] == s[i + 1..j];
  }

  lemma EncodeSecond(q: seq<Pair>)
    requires |q| >= 2
    ensures Encode(q[1..]) == q[1].0 + [COLON] + (q[1].1 + [SEMICOLON] + Encode(q[2..]))
  {
    EncodeFirst(q[1..]);
    assert q[1..][1..] == q[2..];
  }

  lemma TailAfterKey(k: Bytes, v: Bytes, q: seq<Pair>)
    requires COLON !in k && q != [] && COLON !in q[0].0 && Encode([(k, v)]) == Encode(q)
    ensures k == q[0].0 && v + [SEMICOLON] == q[0].1 + [SEMICOLON] + Encode(q[1..])
  {
    FirstKeyIsKnown([(k, v)], q);
    AppendNothing(v + [SEMICOLON]);
  }

  /** A partner with more entries splits the value of a single entry. */
  lemma PartnerSplits(allowed: Bytes -> bool, k: Bytes, v: Bytes, q: seq<Pair>)
    requires COLON !in k && |q| >= 2 && COLON !in q[0].0 && allowed(q[1].0) && Less(q[0].0, q[1].0)
    requires Encode([(k, v)]) == Encode(q)
    ensures exists i, j :: Splits(allowed, k, v, i, j)
  {
    TailAfterKey(k, v, q);
    EncodeSecond(q);
    ValueSplits(allowed, k, v, q[0].1, q[1].0, q[1].1 + [SEMICOLON] + Encode(q[2..]));
  }

  lemma TwoKeys(k: Bytes, a: Bytes, l: Bytes, b: Bytes)
    requires Less(k, l)
    ensures Canonical(map[k := a, l := b]) == [(k, a), (l, b)]
  {
    LessTotal(k, l);
    assert Ascending([k, l]);
    assert KeySet([k, l]) == {k, l} == map[k := a, l := b].Keys;
    SortedKeysAre([k, l]);
  }

  /** Conversely, a value that splits has a partner. */
  lemma SplitsPartner(k: Bytes, v: Bytes, i: nat, j: nat) returns (other: map<Bytes, Bytes>)
    requires i < j < |v| && v[i] == SEMICOLON && v[j] == COLON && Less(k, v[i + 1..j])
    ensures other == map[k := v[..i], v[i + 1..j] := v[j + 1..]]
    ensures other != map[k := v] && Encode(Canonical(other)) == Encode(Canonical(map[k := v]))
  {
    var a, l, b := v[..i], v[i + 1..j], v[j + 1..];
    other := map[k := a, l := b];
    LessTotal(k, l);
    assert l in other && l !in map[k := v];
    assert v == a + [SEMICOLON] + l + [COLON] + b;
    TwoKeys(k, a, l, b);
    EncodeTwoPairs((k, a), (l, b));
    EncodeFoldedPair((k, a), (l, b));
    SingleKey(k, v);
  }

  lemma EncodeFoldedPair(p: Pair, q: Pair)
    ensures EncodePair((p.0, p.1 + [SEMICOLON] + q.0 + [COLON] + q.1)) == EncodePair(p) + EncodePair(q)
  {
  }

  lemma EncodeTwoPairs(p: Pair, q: Pair)
    ensures Encode([p, q]) == EncodePair(p) + EncodePair(q)
  {
    EncodeAppend([p], q);
    EncodeSingle(p);
    assert [p] + [q] == [p, q];
  }

  lemma PartnerOfSingle(allowed: Bytes -> bool, data: map<Bytes, Bytes>, other: map<Bytes, Bytes>, k: Bytes)
    requires forall key :: allowed(key) ==> COLON !in key
    requires k in data && data == map[k := data[k]] && allowed(k) && KeysAllowed(allowed, other)
    requires other != data && Encode(Canonical(other)) == Encode(Canonical(data))
    ensures exists i, j :: Splits(allowed, k, data[k], i, j)
  {
    var v, q := data[k], Canonical(other);
    SingleKey(k, v);
    if q == [] {
      assert false;
    }
    CanonicalKeys(other, 0);
    FirstKeyIsKnown([(k, v)], q);
    if |q| == 1 {
      assert q == [q[0]];
      EqualKeysDecide((k, v), q[0]);
      CanonicalDetermines(data, other);
      assert false;
    }
    CanonicalKeys(other, 1);
    PartnerSplits(allowed, k, v, q);
  }

  /** Exactly when other data with keys of the same form has the same digest input, for any form of keys that excludes
      ':': when there are two entries or more, or the value of the single entry itself reads as two. */
  lemma SharedAmong(x: Platform, allowed: Bytes -> bool, data: map<Bytes, Bytes>)
    requires forall k :: allowed(k) ==> COLON !in k
    requires KeysAllowed(allowed, data)
    ensures (exists other :: other != data && KeysAllowed(allowed, other) &&
                             Encode(Canonical(other)) == Encode(Canonical(data)))
            <==> |data| >= 2 || exists k, i, j :: k in data && |data| == 1 && Splits(allowed, k, data[k], i, j)
  {
    if |data| >= 2 {
      var other := FoldedEntryCollides(x, data);
      assert KeysAllowed(allowed, other);
    } else if |data| == 0 {
      EmptyIsKnown(data);
    } else {
      OneKey(data);
      var k :| k in data && data == map[k := data[k]];
      if i, j :| Splits(allowed, k, data[k], i, j) {
        var other := SplitsPartner(k, data[k], i, j);
        assert KeysAllowed(allowed, other);
      }
      if other :| other != data && KeysAllowed(allowed, other) && Encode(Canonical(other)) == Encode(Canonical(data)) {
        PartnerOfSingle(allowed, data, other, k);
      }
    }
  }

  lemma EmptyIsKnown(data: map<Bytes, Bytes>)
    requires |data| == 0
    ensures forall other :: Encode(Canonical(other)) == Encode(Canonical(data)) ==> other == data
  {
    NoData(data);
    assert data.Keys == {};
    forall other | Encode(Canonical(other)) == Encode(Canonical(data)) ensures other == data {
      ColonsCountPairs(Canonical(other));
      assert Canonical(other) == [];
      SortedKeysSorts(other.Keys);
      assert other.Keys == {};
    }
  }

  /** The characters of a key of a Secret or ConfigMap. */
  predicate DataKeyChar(b: byte)
  {
    b == 45 || b == 46 || b == 95 || 48 <= b <= 57 || 65 <= b <= 90 || 97 <= b <= 122
  }

  function DataKey(): Bytes -> bool
  {
    (k: Bytes) => k != [] && forall b :: b in k ==> DataKeyChar(b)
  }

  /** For the keys that Secrets and ConfigMaps can have (letters, digits, '-', '.', '_'): data with two entries or more
      always shares its digest input with other such data, and a single entry does exactly when its value contains a
      ';', a greater key and a ':'. */
  lemma SharedAmongDataKeys(x: Platform, data: map<Bytes, Bytes>)
    requires KeysAllowed(DataKey(), data)
    ensures (exists other :: other != data && KeysAllowed(DataKey(), other) &&
                             Encode(Canonical(other)) == Encode(Canonical(data)))
            <==> |data| >= 2 || exists k, i, j :: k in data && |data| == 1 && Splits(DataKey(), k, data[k], i, j)
  {
    SharedAmong(x, DataKey(), data);
  }

  function ColonFree(): Bytes -> bool
  {
    (k: Bytes) => COLON !in k
  }

  /** The same for all keys without a ':'. */
  lemma SharedAmongColonFree(x: Platform, data: map<Bytes, Bytes>)
    requires KeysAllowed(ColonFree(), data)
    ensures (exists other :: other != data && KeysAllowed(ColonFree(), other) &&
                             Encode(Canonical(other)) == Encode(Canonical(data)))
            <==> |data| >= 2 || exists k, i, j :: k in data && |data| == 1 && Splits(ColonFree(), k, data[k], i, j)
  {
    SharedAmong(x, ColonFree(), data);
  }

  /* ---- What the hash of a resource covers ---- */

  /** The bytes under a key of a resource: of a ConfigMap with the key in both maps, those of the binary one. */
  ghost function EntryOf(r: Resource, key: Bytes): Option<Bytes>
  {
    if r.kind == "ConfigMap" && key in r.binaryData then Some(r.binaryData[key])
    else if key in r.data then Some(r.data[key])
    else None
  }

  lemma DataIsEntries(r: Resource, key: Bytes)
    requires IsResourceKind(r.kind)
    ensures (if key in DataOf(r) then Some(DataOf(r)[key]) else None) == EntryOf(r, key)
  {
  }

  /** Resources with the same bytes under every key have the same hash. */
  lemma SameEntriesSameHash(x: Platform, a: Resource, b: Resource)
    requires IsResourceKind(a.kind) && IsResourceKind(b.kind)
    requires forall key :: EntryOf(a, key) == EntryOf(b, key)
    ensures ResourceHash(x, a) == ResourceHash(x, b)
  {
    forall key ensures key in DataOf(a) <==> key in DataOf(b)
      ensures key in DataOf(a) ==> key in DataOf(b) && DataOf(a)[key] == DataOf(b)[key]
    {
      DataIsEntries(a, key);
      DataIsEntries(b, key);
    }
    assert DataOf(a) == DataOf(b);
  }

  ghost predicate PlainResource(r: Resource)
  {
    forall key :: EntryOf(r, key).Some? ==> Plain((key, EntryOf(r, key).value))
  }

  /** Two digest inputs with one digest. */
  ghost predicate Collision(x: Platform, a: Bytes, b: Bytes)
  {
    a != b && x.sha256(a) == x.sha256(b)
  }

  /** Conversely, on entries without the delimiters, a change of any entry changes the hash, unless SHA-256 collides. */
  lemma EntryChangeIsDetected(x: Platform, a: Resource, b: Resource, key: Bytes)
    requires x.Lawful() && IsResourceKind(a.kind) && IsResourceKind(b.kind)
    requires PlainResource(a) && PlainResource(b)
    requires EntryOf(a, key) != EntryOf(b, key)
    ensures ResourceHash(x, a) != ResourceHash(x, b) || exists s, t :: Collision(x, s, t)
  {
    DataIsEntries(a, key);
    DataIsEntries(b, key);
    PlainEntries(a);
    PlainEntries(b);
    if ResourceHash(x, a) == ResourceHash(x, b) {
      HashIdentifiesPlainData(x, DataOf(a), DataOf(b));
      assert Collision(x, Encode(Canonical(DataOf(a))), Encode(Canonical(DataOf(b))));
    }
  }

  lemma PlainEntries(r: Resource)
    requires IsResourceKind(r.kind) && PlainResource(r)
    ensures PlainData(DataOf(r))
  {
    forall key | key in DataOf(r) ensures Plain((key, DataOf(r)[key])) {
      DataIsEntries(r, key);
    }
  }

  /** For Secrets, equal hashes of plain data mean equal data or a collision. */
  lemma SecretHashIdentifies(x: Platform, a: Resource, b: Resource)
    requires x.Lawful() && a.kind == b.kind == "Secret" && PlainData(a.data) && PlainData(b.data)
    requires ResourceHash(x, a) == ResourceHash(x, b)
    ensures a.data == b.data || exists s, t :: Collision(x, s, t)
  {
    if a.data != b.data {
      HashIdentifiesPlainData(x, a.data, b.data);
      assert Collision(x, Encode(Canonical(a.data)), Encode(Canonical(b.data)));
    }
  }

  /** For ConfigMaps that keep the same keys as text, and no key twice, equal hashes of plain entries mean equal text
      and equal bytes, or a collision. */
  lemma ConfigMapHashIdentifies(x: Platform, a: Resource, b: Resource)
    requires x.Lawful() && a.kind == b.kind == "ConfigMap" && PlainResource(a) && PlainResource(b)
    requires a.data.Keys !! a.binaryData.Keys && b.data.Keys !! b.binaryData.Keys
    requires a.data.Keys !! b.binaryData.Keys && b.data.Keys !! a.binaryData.Keys
    requires ResourceHash(x, a) == ResourceHash(x, b)
    ensures (a.data == b.data && a.binaryData == b.binaryData) || exists s, t :: Collision(x, s, t)
  {
    if !(exists s, t :: Collision(x, s, t)) {
      forall key ensures EntryOf(a, key) == EntryOf(b, key) {
        if EntryOf(a, key) != EntryOf(b, key) {
          EntryChangeIsDetected(x, a, b, key);
        }
      }
      forall key
        ensures key in a.data <==> key in b.data
        ensures key in a.data ==> a.data[key] == b.data[key]
        ensures key in a.binaryData <==> key in b.binaryData
        ensures key in a.binaryData ==> a.binaryData[key] == b.binaryData[key]
      {
        assert EntryOf(a, key) == EntryOf(b, key);
        assert !(key in a.data && key in b.binaryData) && !(key in b.data && key in a.binaryData);
      }
    }
  }

  /* ---- The order of keys ---- */

  /** The byte at this position is the first different one, and is less in the first string. */
  ghost predicate LessAt(a: Bytes, b: Bytes, i: nat)
  {
    i < |a| && i < |b| && a[..i] == b[..i] && a[i] < b[i]
  }

  ghost predicate ProperPrefix(a: Bytes, b: Bytes)
  {
    |a| < |b| && a == b[..|a|]
  }

  lemma LessAtCons(a: Bytes, b: Bytes, i: nat)
    requires a != [] && b != [] && a[0] == b[0]
    ensures LessAt(a, b, i + 1) <==> LessAt(a[1..], b[1..], i)
    ensures !LessAt(a, b, 0)
  {
    if i < |a| - 1 && i < |b| - 1 {
      assert a[..i + 1] == [a[0]] + a[1..][..i] && b[..i + 1] == [b[0]] + b[1..][..i];
      assert a[..i + 1][1..] == a[1..][..i] && b[..i + 1][1..] == b[1..][..i];
    }
  }

  lemma PrefixCons(a: Bytes, b: Bytes)
    requires a != [] && b != [] && a[0] == b[0]
    ensures ProperPrefix(a, b) <==> ProperPrefix(a[1..], b[1..])
  {
    if |a| < |b| {
      assert b[..|a|] == [b[0]] + b[1..][..|a| - 1];
      assert a == [a[0]] + a[1..];
      assert b[..|a|][1..] == b[1..][..|a| - 1];
    }
  }

  lemma EqualBefore(a: Bytes, b: Bytes, i: nat)
    requires LessAt(a, b, i) && i > 0
    ensures a[0] == b[0]
  {
    assert a[..i][0] == b[..i][0];
  }

  lemma FirstByteDecides(a: Bytes, b: Bytes)
    requires a != [] && b != [] && a[0] != b[0]
    ensures !ProperPrefix(a, b)
    ensures (exists i :: LessAt(a, b, i)) <==> a[0] < b[0]
  {
    if a[0] < b[0] {
      assert LessAt(a, b, 0);
    }
    if i: nat :| LessAt(a, b, i) && i > 0 {
      EqualBefore(a, b, i);
      assert false;
    }
  }

  /** Keys are ordered like Go strings: a proper prefix comes first, and otherwise the first different byte decides. */
  lemma {:induction false} LessExactly(a: Bytes, b: Bytes)
    ensures Less(a, b) <==> ProperPrefix(a, b) || exists i :: LessAt(a, b, i)
  {
    if a == [] || b == [] {
    } else if a[0] != b[0] {
      FirstByteDecides(a, b);
    } else {
      LessExactly(a[1..], b[1..]);
      PrefixCons(a, b);
      if i: nat :| LessAt(a[1..], b[1..], i) {
        LessAtCons(a, b, i);
        assert LessAt(a, b, i + 1);
      }
      if i: nat :| LessAt(a, b, i) {
        LessAtCons(a, b, if i > 0 then i - 1 else 0);
        assert LessAt(a[1..], b[1..], i - 1);
      }
    }
  }
}
