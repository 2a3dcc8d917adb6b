/** PHP arrays as ordered association lists: reading, writing, appending and
    removing keys with PHP's semantics (an overwrite keeps the key's place, a new
    key goes to the end, `$a[] = v` uses the next integer key). */
module PhpArrays {
  import opened PhpValues

  function Keys(a: seq<Entry>): (ks: seq<Key>)
    ensures |ks| == |a|
    ensures forall i :: 0 <= i < |a| ==> ks[i] == a[i].key
  {
    seq(|a|, i requires 0 <= i < |a| => a[i].key)
  }

  function Values(a: seq<Entry>): (vs: seq<Value>)
    ensures |vs| == |a|
    ensures forall i :: 0 <= i < |a| ==> vs[i] == a[i].val
  {
    seq(|a|, i requires 0 <= i < |a| => a[i].val)
  }

  /** Every key occurs once: the representation invariant of a PHP array. */
  predicate NoDupKeys(a: seq<Entry>)
  {
    forall i, j :: 0 <= i < j < |a| ==> a[i].key != a[j].key
  }

  /** A list: keys 0, 1, 2, ... in order (what json_encode writes as a JSON array). */
  predicate IsList(a: seq<Entry>)
  {
    forall i :: 0 <= i < |a| ==> a[i].key == IntKey(i)
  }

  /** `$a[$k]`, absent when the key is missing; the first entry with the key wins. */
  function Find(a: seq<Entry>, k: Key): Option<Value>
  {
    if a == [] then None
    else if a[0].key == k then Some(a[0].val) else Find(a[1..], k)
  }

  /** A key is found exactly when it is among the keys, and what is found is stored under it. */
  lemma {:induction false} FindKeys(a: seq<Entry>, k: Key)
    ensures Find(a, k).Some? <==> k in Keys(a)
    ensures Find(a, k).Some? ==> Entry(k, Find(a, k).value) in a
  {
    if a != [] {
      FindKeys(a[1..], k);
      assert Keys(a) == [a[0].key] + Keys(a[1..]);
    }
  }

  lemma FindCons(e: Entry, t: seq<Entry>, j: Key)
    ensures Find([e] + t, j) == if e.key == j then Some(e.val) else Find(t, j)
  {
    assert ([e] + t)[1..] == t;
  }

  /** Reading an array that has one more entry at its end. */
  lemma {:induction false} FindSnoc(a: seq<Entry>, e: Entry, k: Key)
    ensures Find(a + [e], k) == if k in Keys(a) then Find(a, k) else if e.key == k then Some(e.val) else None
  {
    if a == [] {
      assert a + [e] == [e];
    } else {
      FindSnoc(a[1..], e, k);
      assert (a + [e])[1..] == a[1..] + [e];
      assert Keys(a) == [a[0].key] + Keys(a[1..]);
    }
  }

  /** In an array with unique keys, the entry at any position is what `Find` returns for its key. */
  lemma {:induction false} FindAt(a: seq<Entry>, i: int)
    requires NoDupKeys(a) && 0 <= i < |a|
    ensures Find(a, a[i].key) == Some(a[i].val)
  {
    if i > 0 {
      assert NoDupKeys(a[1..]);
      FindAt(a[1..], i - 1);
    }
  }

  /** `$a[$k] = $v`: an existing key keeps its place, a new one goes to the end. */
  function Set(a: seq<Entry>, k: Key, v: Value): (r: seq<Entry>)
    ensures Find(r, k) == Some(v)
  {
    if a == [] then [Entry(k, v)]
    else if a[0].key == k then
      assert ([Entry(k, v)] + a[1..])[1..] == a[1..];
      [Entry(k, v)] + a[1..]
    else
      var t := Set(a[1..], k, v);
      assert ([a[0]] + t)[1..] == t;
      [a[0]] + t
  }

  /** A write changes what is read at its own key and nowhere else. */
  lemma {:induction false} FindSet(a: seq<Entry>, k: Key, v: Value, j: Key)
    ensures Find(Set(a, k, v), j) == if j == k then Some(v) else Find(a, j)
  {
    if a != [] && a[0].key != k {
      FindSet(a[1..], k, v, j);
    }
  }

  /** Writing a key that is not there appends it. */
  lemma {:induction false} SetAppends(a: seq<Entry>, k: Key, v: Value)
    requires Find(a, k).None?
    ensures Set(a, k, v) == a + [Entry(k, v)]
  {
    if a != [] {
      SetAppends(a[1..], k, v);
      assert a + [Entry(k, v)] == [a[0]] + (a[1..] + [Entry(k, v)]);
    }
  }

  lemma KeysCons(e: Entry, t: seq<Entry>)
    ensures Keys([e] + t) == [e.key] + Keys(t)
  {
  }

  /** Overwriting a key that is there leaves the keys as they were. */
  lemma {:induction false} SetKeysPresent(a: seq<Entry>, k: Key, v: Value)
    requires k in Keys(a)
    ensures Keys(Set(a, k, v)) == Keys(a)
  {
    KeysCons(a[0], a[1..]);
    assert a == [a[0]] + a[1..];
    if a[0].key == k {
      KeysCons(Entry(k, v), a[1..]);
    } else {
      SetKeysPresent(a[1..], k, v);
      KeysCons(a[0], Set(a[1..], k, v));
    }
  }

  /** Writing a new key puts it after the others. */
  lemma {:induction false} SetKeysNew(a: seq<Entry>, k: Key, v: Value)
    requires k !in Keys(a)
    ensures Keys(Set(a, k, v)) == Keys(a) + [k]
  {
    if a != [] {
      KeysCons(a[0], a[1..]);
      assert a == [a[0]] + a[1..];
      SetKeysNew(a[1..], k, v);
      KeysCons(a[0], Set(a[1..], k, v));
    }
  }

  /** The keys after a write: unchanged when the key was there, one more at the end otherwise. */
  lemma SetKeys(a: seq<Entry>, k: Key, v: Value)
    ensures Keys(Set(a, k, v)) == if k in Keys(a) then Keys(a) else Keys(a) + [k]
  {
    if k in Keys(a) { SetKeysPresent(a, k, v); } else { SetKeysNew(a, k, v); }
  }

  /** `unset($a[$k])`. */
  function Unset(a: seq<Entry>, k: Key): (r: seq<Entry>)
    ensures Find(r, k) == None
  {
    if a == [] then []
    else if a[0].key == k then Unset(a[1..], k)
    else
      var t := Unset(a[1..], k);
      assert ([a[0]] + t)[1..] == t;
      [a[0]] + t
  }

  /** Removing a key changes what is read at that key and nowhere else. */
  lemma {:induction false} FindUnset(a: seq<Entry>, k: Key, j: Key)
    ensures Find(Unset(a, k), j) == if j == k then None else Find(a, j)
  {
    if a != [] {
      FindUnset(a[1..], k, j);
      if a[0].key != k {
        assert ([a[0]] + Unset(a[1..], k))[1..] == Unset(a[1..], k);
      }
    }
  }

  /** The key `$a[] = $v` uses: one past the largest integer key, and 0 when there is none. */
  function NextIndex(a: seq<Entry>): (n: nat)
    ensures forall i :: 0 <= i < |a| && a[i].key.IntKey? ==> a[i].key.i < n
  {
    if a == [] then 0
    else
      var n := NextIndex(a[..|a| - 1]);
      var last := a[|a| - 1].key;
      assert forall i :: 0 <= i < |a| - 1 ==> a[i] == a[..|a| - 1][i];
      if last.IntKey? && last.i + 1 > n then last.i + 1 else n
  }

  /** `$a[] = $v`. */
  function Push(a: seq<Entry>, v: Value): (r: seq<Entry>)
    ensures Values(r) == Values(a) + [v]
    ensures Keys(r) == Keys(a) + [IntKey(NextIndex(a))]
    ensures IntKey(NextIndex(a)) !in Keys(a)
    ensures NoDupKeys(a) ==> NoDupKeys(r)
    ensures IsList(a) ==> IsList(r)
  {
    ListNextIndex(a);
    a + [Entry(IntKey(NextIndex(a)), v)]
  }

  lemma {:induction false} ListNextIndex(a: seq<Entry>)
    ensures IsList(a) ==> NextIndex(a) == |a|
  {
    if a != [] && IsList(a) {
      var p := a[..|a| - 1];
      assert IsList(p);
      ListNextIndex(p);
    }
  }

  /** `foreach ($vs as $v) { $a[] = $v; }`. */
  function PushAll(a: seq<Entry>, vs: seq<Value>): (r: seq<Entry>)
    ensures Values(r) == Values(a) + vs
    ensures NoDupKeys(a) ==> NoDupKeys(r)
    ensures IsList(a) ==> IsList(r)
  {
    if vs == [] then a
    else
      assert vs == vs[..|vs| - 1] + [vs[|vs| - 1]];
      Push(PushAll(a, vs[..|vs| - 1]), vs[|vs| - 1])
  }

  /** The array stored under `$a[$k]`; a missing or non-array value reads as `[]`
      (PHP creates the array on a nested write). */
  function Sub(a: seq<Entry>, k: Key): seq<Entry>
  {
    match Find(a, k)
    case Some(Arr(x)) => x
    case _ => []
  }

  /** `$a[$k1][$k2] = $v`. */
  function SetIn(a: seq<Entry>, k1: Key, k2: Key, v: Value): seq<Entry>
  {
    Set(a, k1, Arr(Set(Sub(a, k1), k2, v)))
  }

  /** `$a[$k][] = $v`. */
  function PushIn(a: seq<Entry>, k: Key, v: Value): seq<Entry>
  {
    Set(a, k, Arr(Push(Sub(a, k), v)))
  }

  /** `foreach ($vs as $v) { $a[$k][] = $v; }`. */
  function PushAllIn(a: seq<Entry>, k: Key, vs: seq<Value>): seq<Entry>
  {
    if vs == [] then a else PushIn(PushAllIn(a, k, vs[..|vs| - 1]), k, vs[|vs| - 1])
  }

  /** Writing the same key twice keeps only the second write. */
  lemma {:induction false} SetSet(a: seq<Entry>, k: Key, v1: Value, v2: Value)
    ensures Set(Set(a, k, v1), k, v2) == Set(a, k, v2)
  {
    if a != [] && a[0].key != k {
      SetSet(a[1..], k, v1, v2);
      assert ([a[0]] + Set(a[1..], k, v1))[1..] == Set(a[1..], k, v1);
    } else if a != [] {
      assert ([Entry(k, v1)] + a[1..])[1..] == a[1..];
    }
  }

  /** Writing a key again after a write to another key: the same array as if the
      first write had stored the final value. */
  lemma {:induction false} SetSetOver(a: seq<Entry>, k: Key, v1: Value, j: Key, w: Value, v2: Value)
    requires j != k
    ensures Set(Set(Set(a, k, v1), j, w), k, v2) == Set(Set(a, k, v2), j, w)
  {
    if a == [] {
      assert Set([Entry(k, v1)], j, w) == [Entry(k, v1), Entry(j, w)];
      assert Set([Entry(k, v2)], j, w) == [Entry(k, v2), Entry(j, w)];
    } else if a[0].key == k {
      var t := Set(a[1..], j, w);
      assert Set([Entry(k, v1)] + a[1..], j, w) == [Entry(k, v1)] + t;
      assert Set([Entry(k, v2)] + a[1..], j, w) == [Entry(k, v2)] + t;
    } else if a[0].key == j {
      SetSet(a[1..], k, v1, v2);
      var t1 := Set(a[1..], k, v1);
      assert Set([a[0]] + t1, j, w) == [Entry(j, w)] + t1;
      assert Set([Entry(j, w)] + t1, k, v2) == [Entry(j, w)] + Set(t1, k, v2);
      var t2 := Set(a[1..], k, v2);
      assert Set([a[0]] + t2, j, w) == [Entry(j, w)] + t2;
    } else {
      SetSetOver(a[1..], k, v1, j, w, v2);
      var t1 := Set(Set(a[1..], k, v1), j, w);
      assert Set([a[0]] + Set(a[1..], k, v1), j, w) == [a[0]] + t1;
      assert Set([a[0]] + t1, k, v2) == [a[0]] + Set(t1, k, v2);
      assert Set([a[0]] + Set(a[1..], k, v2), j, w) == [a[0]] + Set(Set(a[1..], k, v2), j, w);
    }
  }

  /** One more `$a[$k][] = $v` extends the run of appends. */
  lemma PushAllInStep(a: seq<Entry>, k: Key, vs: seq<Value>, v: Value)
    ensures PushIn(PushAllIn(a, k, vs), k, v) == PushAllIn(a, k, vs + [v])
  {
    assert (vs + [v])[..|vs|] == vs;
  }

  /** The appends of a loop's first `i + 1` rounds are those of its first `i` and one more. */
  lemma PushAllInPrefix(a: seq<Entry>, k: Key, vs: seq<Value>, i: int)
    requires 0 <= i < |vs|
    ensures PushAllIn(a, k, vs[..i + 1]) == PushIn(PushAllIn(a, k, vs[..i]), k, vs[i])
  {
    assert vs[..i + 1][..i] == vs[..i];
  }

  /** A run of appends to `$a[$k]` writes the array under `$k` once: the old
      one (or `[]`) with every value appended. */
  lemma {:induction false} PushAllInIsPushAll(a: seq<Entry>, k: Key, vs: seq<Value>)
    requires vs != []
    ensures PushAllIn(a, k, vs) == Set(a, k, Arr(PushAll(Sub(a, k), vs)))
    decreases |vs|
  {
    var p := vs[..|vs| - 1];
    var v := vs[|vs| - 1];
    var s := Sub(a, k);
    assert PushAll(s, vs) == Push(PushAll(s, p), v);
    if p != [] {
      PushAllInIsPushAll(a, k, p);
      PushInSet(a, k, PushAll(s, p), v);
    }
  }

  /** A run of appends to `$a[$k]` leaves every other key as it was. */
  lemma {:induction false} PushAllInOther(a: seq<Entry>, k: Key, vs: seq<Value>, j: Key)
    requires j != k
    ensures Find(PushAllIn(a, k, vs), j) == Find(a, j)
    decreases |vs|
  {
    if vs != [] {
      var p := PushAllIn(a, k, vs[..|vs| - 1]);
      PushAllInOther(a, k, vs[..|vs| - 1], j);
      FindSet(p, k, Arr(Push(Sub(p, k), vs[|vs| - 1])), j);
    }
  }

  /** After a run of appends, `$a[$k]` is the old array (or `[]`) followed by the
      appended values, keyed as a list would continue. */
  lemma PushAllInFind(a: seq<Entry>, k: Key, vs: seq<Value>)
    ensures vs != [] ==> Find(PushAllIn(a, k, vs), k) == Some(Arr(PushAll(Sub(a, k), vs)))
    ensures Sub(a, k) == [] ==> Sub(PushAllIn(a, k, vs), k) == PushAll([], vs)
  {
    if vs != [] {
      PushAllInIsPushAll(a, k, vs);
      var x := PushAll(Sub(a, k), vs);
      assert Find(Set(a, k, Arr(x)), k) == Some(Arr(x));
    }
  }

  /** Appending to an array just written under `$k` is writing the longer array. */
  lemma PushInSet(a: seq<Entry>, k: Key, x: seq<Entry>, v: Value)
    ensures PushIn(Set(a, k, Arr(x)), k, v) == Set(a, k, Arr(Push(x, v)))
  {
    assert Sub(Set(a, k, Arr(x)), k) == x;
    SetSet(a, k, Arr(x), Arr(Push(x, v)));
  }

  /** Values appended to an empty array are read back at 0, 1, 2, ... */
  lemma ListFind(vs: seq<Value>, i: int)
    requires 0 <= i < |vs|
    ensures Find(PushAll([], vs), IntKey(i)) == Some(vs[i])
  {
    var r := PushAll([], vs);
    ListOf(vs);
    ListNoDup(r);
    assert r[i].key == IntKey(i) && r[i].val == Values(r)[i];
    FindAt(r, i);
  }

  /** A list never repeats a key. */
  lemma ListNoDup(a: seq<Entry>)
    requires IsList(a)
    ensures NoDupKeys(a)
  {
  }

  /** Values appended to an empty array form a list of exactly those values. */
  lemma ListOf(vs: seq<Value>)
    ensures IsList(PushAll([], vs)) && |PushAll([], vs)| == |vs| && Values(PushAll([], vs)) == vs
  {
    assert |Values(PushAll([], vs))| == |vs|;
  }

  /** The keys of `ks` in order of first occurrence, each once. */
  function Distinct(ks: seq<Key>): seq<Key>
  {
    if ks == [] then []
    else
      var d := Distinct(ks[..|ks| - 1]);
      if ks[|ks| - 1] in d then d else d + [ks[|ks| - 1]]
  }

  /** `Distinct` keeps every key, adds none and repeats none. */
  lemma {:induction false} DistinctIs(ks: seq<Key>)
    ensures forall k :: k in Distinct(ks) <==> k in ks
    ensures forall i, j :: 0 <= i < j < |Distinct(ks)| ==> Distinct(ks)[i] != Distinct(ks)[j]
  {
    if ks != [] {
      var p := ks[..|ks| - 1];
      DistinctIs(p);
      assert ks == p + [ks[|ks| - 1]];
    }
  }

  /** `$a[$k]`, read as null when missing. */
  function Get(a: seq<Entry>, k: Key): Value
  {
    Find(a, k).GetOr(Null)
  }

  /** `$a[$k1][$k2]`, null when a step is missing or not an array. */
  function Get2(a: seq<Entry>, k1: Key, k2: Key): Value
  {
    match Find(a, k1)
    case Some(Arr(b)) => Get(b, k2)
    case _ => Null
  }

  /** `$a[$k1][$k2][$k3]`, null when a step is missing or not an array. */
  function Get3(a: seq<Entry>, k1: Key, k2: Key, k3: Key): Value
  {
    match Find(a, k1)
    case Some(Arr(b)) => Get2(b, k2, k3)
    case _ => Null
  }

  /** A nested write `$a[$k1][$k2] = $v` leaves every other top-level key as it was. */
  lemma FindSetIn(a: seq<Entry>, k1: Key, k2: Key, v: Value, j: Key)
    requires j != k1
    ensures Find(SetIn(a, k1, k2, v), j) == Find(a, j)
  {
    FindSet(a, k1, Arr(Set(Sub(a, k1), k2, v)), j);
  }

  /** `$a[$k1][$k2] = $v` is read back at `$a[$k1][$k2]`, and leaves every other
      `$a[$k1][$j]` as it was. */
  lemma Get2SetIn(a: seq<Entry>, k1: Key, k2: Key, v: Value, j: Key)
    ensures Get2(SetIn(a, k1, k2, v), k1, j) == if j == k2 then v else Get2(a, k1, j)
  {
    FindSet(Sub(a, k1), k2, v, j);
  }

  /** A write under one top-level key leaves reads under the others as they were. */
  lemma Get2SetOther(a: seq<Entry>, k: Key, v: Value, j: Key, x: Key)
    requires j != k
    ensures Get2(Set(a, k, v), j, x) == Get2(a, j, x)
  {
    FindSet(a, k, v, j);
  }

  /** Removing one top-level key leaves reads under the others as they were. */
  lemma Get2UnsetOther(a: seq<Entry>, k: Key, j: Key, x: Key)
    requires j != k
    ensures Get2(Unset(a, k), j, x) == Get2(a, j, x)
  {
    FindUnset(a, k, j);
  }

  /** A top-level array written whole is read back entry by entry. */
  lemma Get2Set(a: seq<Entry>, k: Key, b: seq<Entry>, x: Key)
    ensures Get2(Set(a, k, Arr(b)), k, x) == Get(b, x)
  {
  }

  /** `$v[$k]` on any value: absent unless `$v` is an array holding `$k`. */
  function Lookup(v: Value, k: Key): Option<Value>
  {
    match v
    case Arr(a) => Find(a, k)
    case _ => None
  }
}
