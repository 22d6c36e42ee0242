module Options {

  datatype Option<+T> = None | Some(value: T)

  /** What a Python call comes back with: a value, or an exception carrying its message. */
  datatype Result<+T> = Ok(value: T) | Raise(message: string)

  /** A handler's result together with the state it leaves behind, also
      when it raised. */
  datatype Step<+W> = Step(result: Result<string>, world: W)
}

/** Python's `dict` with string keys as the pipeline uses it: entries kept in
    first-insertion order, `d[k] = v` replacing a value in place, and
    `d.update(other)` writing every entry of `other` in turn. */
module OrderedMaps {
  import opened Options

  type OrderedMap<V> = seq<(string, V)>

  function Keys<V>(m: OrderedMap<V>): (ks: seq<string>)
    ensures |ks| == |m|
    decreases |m|
  {
    if |m| == 0 then [] else [m[0].0] + Keys(m[1..])
  }

  /** The keys, position by position. */
  lemma {:induction false} KeysIndex<V>(m: OrderedMap<V>)
    ensures forall i :: 0 <= i < |m| ==> Keys(m)[i] == m[i].0
    decreases |m|
  {
    if |m| > 0 {
      KeysIndex(m[1..]);
    }
  }

  predicate UniqueKeys<V>(m: OrderedMap<V>) {
    forall i, j :: 0 <= i < j < |m| ==> m[i].0 != m[j].0
  }

  /** `d.get(k)`. */
  function Lookup<V>(m: OrderedMap<V>, k: string): (r: Option<V>)
    ensures r.Some? <==> k in Keys(m)
  {
    if |m| == 0 then None
    else if m[0].0 == k then Some(m[0].1)
    else
      assert Keys(m) == [m[0].0] + Keys(m[1..]);
      Lookup(m[1..], k)
  }

  lemma LookupCons<V>(k: string, v: V, m: OrderedMap<V>, k': string)
    ensures Lookup([(k, v)] + m, k') == if k' == k then Some(v) else Lookup(m, k')
  {
    assert ([(k, v)] + m)[1..] == m;
  }

  /** With unique keys, looking up the key at position `i` gives the value there. */
  lemma {:induction false} LookupAt<V>(m: OrderedMap<V>, i: nat)
    requires UniqueKeys(m) && i < |m|
    ensures Lookup(m, m[i].0) == Some(m[i].1)
  {
    if i > 0 {
      assert m[0].0 != m[i].0;
      assert m[1..][i - 1] == m[i];
      LookupAt(m[1..], i - 1);
    }
  }

  /** `d[k] = v`: an existing key keeps its position and takes the new value;
      a new key goes last (lemmas `PutKeys` and `PutLookup`). */
  function Put<V>(m: OrderedMap<V>, k: string, v: V): (r: OrderedMap<V>)
    ensures |r| == if k in Keys(m) then |m| else |m| + 1
    decreases |m|
  {
    if |m| == 0 then [(k, v)]
    else if m[0].0 == k then [(k, v)] + m[1..]
    else
      assert Keys(m) == [m[0].0] + Keys(m[1..]);
      [m[0]] + Put(m[1..], k, v)
  }

  lemma {:induction false} PutKeys<V>(m: OrderedMap<V>, k: string, v: V)
    ensures Keys(Put(m, k, v)) == if k in Keys(m) then Keys(m) else Keys(m) + [k]
    decreases |m|
  {
    if |m| > 0 {
      assert Keys(m) == [m[0].0] + Keys(m[1..]);
      if m[0].0 == k {
        assert Keys([(k, v)] + m[1..]) == [k] + Keys(m[1..]);
      } else {
        PutKeys(m[1..], k, v);
        var t := Put(m[1..], k, v);
        assert Keys([m[0]] + t) == [m[0].0] + Keys(t);
      }
    }
  }

  /** After `d[k] = v`, `k` reads `v` and every other key reads what it read before. */
  lemma {:induction false} PutLookup<V>(m: OrderedMap<V>, k: string, v: V, k': string)
    ensures Lookup(Put(m, k, v), k') == if k' == k then Some(v) else Lookup(m, k')
    decreases |m|
  {
    if |m| > 0 && m[0].0 != k {
      PutLookup(m[1..], k, v, k');
      assert ([m[0]] + Put(m[1..], k, v))[1..] == Put(m[1..], k, v);
    }
  }

  lemma PutUnique<V>(m: OrderedMap<V>, k: string, v: V)
    requires UniqueKeys(m)
    ensures UniqueKeys(Put(m, k, v))
  {
    var r := Put(m, k, v);
    PutKeys(m, k, v);
    KeysIndex(m);
    KeysIndex(r);
  }

  /** The keys of `ks` not in `seen`, each once, in order of first appearance. */
  function NewKeys(ks: seq<string>, seen: seq<string>): seq<string> {
    if |ks| == 0 then []
    else if ks[0] in seen then NewKeys(ks[1..], seen)
    else [ks[0]] + NewKeys(ks[1..], seen + [ks[0]])
  }

  lemma {:induction false} NewKeysAllSeen(ks: seq<string>, seen: seq<string>)
    requires forall k :: k in ks ==> k in seen
    ensures NewKeys(ks, seen) == []
  {
    if |ks| > 0 {
      assert ks[0] in ks;
      NewKeysAllSeen(ks[1..], seen);
    }
  }

  /** `d.update(n)`: the entries of `n` written one after another; the keys
      of `m` keep their places and unseen keys of `n` follow in `n`'s order. */
  function Update<V>(m: OrderedMap<V>, n: OrderedMap<V>): (r: OrderedMap<V>)
    decreases |n|
  {
    if |n| == 0 then m else Update(Put(m, n[0].0, n[0].1), n[1..])
  }

  /** The keys of `m` keep their places and unseen keys of `n` follow in `n`'s order. */
  lemma {:induction false} UpdateKeyOrder<V>(m: OrderedMap<V>, n: OrderedMap<V>)
    ensures Keys(Update(m, n)) == Keys(m) + NewKeys(Keys(n), Keys(m))
    decreases |n|
  {
    if |n| > 0 {
      assert Keys(n) == [n[0].0] + Keys(n[1..]);
      PutKeys(m, n[0].0, n[0].1);
      UpdateKeyOrder(Put(m, n[0].0, n[0].1), n[1..]);
    }
  }

  /** The keys after an update are those of either map. */
  lemma {:induction false} UpdateKeys<V>(m: OrderedMap<V>, n: OrderedMap<V>)
    ensures forall k :: k in Keys(Update(m, n)) <==> k in Keys(m) || k in Keys(n)
    decreases |n|
  {
    if |n| > 0 {
      assert Keys(n) == [n[0].0] + Keys(n[1..]);
      PutKeys(m, n[0].0, n[0].1);
      UpdateKeys(Put(m, n[0].0, n[0].1), n[1..]);
    }
  }

  /** After `d.update(n)` a key of `n` reads its value in `n`; any other key
      reads what it read before. */
  lemma {:induction false} UpdateLookup<V>(m: OrderedMap<V>, n: OrderedMap<V>, k: string)
    requires UniqueKeys(n)
    ensures Lookup(Update(m, n), k) == if k in Keys(n) then Lookup(n, k) else Lookup(m, k)
    decreases |n|
  {
    if |n| > 0 {
      assert n[0].0 !in Keys(n[1..]) by {
        KeysIndex(n[1..]);
        assert forall i :: 0 <= i < |n| - 1 ==> n[1..][i] == n[i + 1];
      }
      UpdateLookup(Put(m, n[0].0, n[0].1), n[1..], k);
      PutLookup(m, n[0].0, n[0].1, k);
    }
  }

  lemma {:induction false} UpdateUnique<V>(m: OrderedMap<V>, n: OrderedMap<V>)
    requires UniqueKeys(m)
    ensures UniqueKeys(Update(m, n))
    decreases |n|
  {
    if |n| > 0 {
      PutUnique(m, n[0].0, n[0].1);
      UpdateUnique(Put(m, n[0].0, n[0].1), n[1..]);
    }
  }

  /** Two maps with unique keys, the same key order and the same lookups are equal. */
  lemma Extensional<V>(a: OrderedMap<V>, b: OrderedMap<V>)
    requires UniqueKeys(a) && UniqueKeys(b)
    requires Keys(a) == Keys(b)
    requires forall k :: Lookup(a, k) == Lookup(b, k)
    ensures a == b
  {
    KeysIndex(a);
    KeysIndex(b);
    forall i | 0 <= i < |a| ensures a[i] == b[i] {
      LookupAt(a, i);
      LookupAt(b, i);
    }
  }

  /** Applying the same update twice is the same as applying it once. */
  lemma UpdateIdempotent<V>(m: OrderedMap<V>, n: OrderedMap<V>)
    requires UniqueKeys(m) && UniqueKeys(n)
    ensures Update(Update(m, n), n) == Update(m, n)
  {
    var once := Update(m, n);
    var twice := Update(once, n);
    UpdateKeys(m, n);
    UpdateKeyOrder(m, n);
    UpdateKeyOrder(once, n);
    NewKeysAllSeen(Keys(n), Keys(once));
    UpdateUnique(m, n);
    UpdateUnique(once, n);
    forall k ensures Lookup(twice, k) == Lookup(once, k) {
      UpdateLookup(once, n, k);
      UpdateLookup(m, n, k);
    }
    Extensional(twice, once);
  }

  /** A key not yet present is appended. */
  lemma {:induction false} PutFresh<V>(m: OrderedMap<V>, k: string, v: V)
    requires k !in Keys(m)
    ensures Put(m, k, v) == m + [(k, v)]
    decreases |m|
  {
    if |m| > 0 {
      assert Keys(m) == [m[0].0] + Keys(m[1..]);
      PutFresh(m[1..], k, v);
      assert [m[0]] + (m[1..] + [(k, v)]) == m + [(k, v)];
    }
  }

  /** Updating an empty map with entries whose keys are unique gives those entries. */
  lemma UpdateEmpty<V>(n: OrderedMap<V>)
    requires UniqueKeys(n)
    ensures Update([], n) == n
  {
    var r := Update([], n);
    UpdateKeyOrder([], n);
    KeysIndex(n);
    NewKeysDistinct(Keys(n), []);
    assert Keys(r) == Keys(n);
    UpdateUnique([], n);
    forall k ensures Lookup(r, k) == Lookup(n, k) {
      UpdateLookup([], n, k);
    }
    Extensional(r, n);
  }

  /** Distinct keys none of which was seen are all new. */
  lemma {:induction false} NewKeysDistinct(ks: seq<string>, seen: seq<string>)
    requires forall i, j :: 0 <= i < j < |ks| ==> ks[i] != ks[j]
    requires forall i :: 0 <= i < |ks| ==> ks[i] !in seen
    ensures NewKeys(ks, seen) == ks
    decreases |ks|
  {
    if |ks| > 0 {
      var t := ks[1..];
      assert forall i :: 0 <= i < |t| ==> t[i] == ks[i + 1];
      NewKeysDistinct(t, seen + [ks[0]]);
      assert [ks[0]] + t == ks;
    }
  }
}
