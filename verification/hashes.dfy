/** Ruby's insertion-ordered Hash as a sequence of entries, with the Hash
    methods the label helper uses: `[]`, `delete`, `[]=`, `||=`, `slice`,
    `merge!`. A Ruby Hash never holds a key twice (`Unique`); the functions
    here are total on any sequence, reading the first entry for a key and
    deleting every entry for it, which is Ruby's behaviour on unique ones. */
module Hashes {
  import opened Ruby

  /** The keys of `h`, in insertion order (`Hash#keys`). */
  function Keys(h: seq<Entry>): (ks: seq<Key>)
    ensures |ks| == |h|
    ensures forall i :: 0 <= i < |h| ==> ks[i] == h[i].key
  {
    if h == [] then [] else [h[0].key] + Keys(h[1..])
  }

  /** No key occurs twice in `ks`. */
  predicate Distinct(ks: seq<Key>) {
    forall i, j :: 0 <= i < j < |ks| ==> ks[i] != ks[j]
  }

  /** No key occurs twice: the invariant of every Ruby Hash. */
  predicate Unique(h: seq<Entry>) {
    Distinct(Keys(h))
  }

  /** The value stored under `k`, or `None` when `k` is not a key. */
  function Lookup(h: seq<Entry>, k: Key): (r: Option<Value>)
    ensures r.Some? <==> k in Keys(h)
  {
    if h == [] then None
    else if h[0].key == k then Some(h[0].value)
    else Lookup(h[1..], k)
  }

  /** `Hash#[]`: the stored value, `nil` for a missing key. */
  function Get(h: seq<Entry>, k: Key): Value {
    Lookup(h, k).GetOr(Nil)
  }

  /** `h` without the entries whose key is in `ks`, the others kept in order. */
  function Without(h: seq<Entry>, ks: set<Key>): (r: seq<Entry>)
    ensures forall k :: Lookup(r, k) == if k in ks then None else Lookup(h, k)
  {
    if h == [] then []
    else if h[0].key in ks then Without(h[1..], ks)
    else [h[0]] + Without(h[1..], ks)
  }

  /** `Hash#delete`: the value removed (`nil` when `k` is missing) and the
      hash that remains. */
  function Delete(h: seq<Entry>, k: Key): (r: (Value, seq<Entry>))
    ensures k in Keys(h) ==> r.0 == Lookup(h, k).value
    ensures k !in Keys(h) ==> r.0 == Nil && r.1 == h
    ensures k !in Keys(r.1)
    ensures forall k' :: k' != k ==> Lookup(r.1, k') == Lookup(h, k')
  {
    if k !in Keys(h) then
      WithoutAbsent(h, {k});
      (Nil, Without(h, {k}))
    else
      (Get(h, k), Without(h, {k}))
  }

  /** `Hash#[]=`: an existing entry for `k` takes the new value in place; a
      new key is appended. */
  function Store(h: seq<Entry>, k: Key, v: Value): (r: seq<Entry>)
    ensures forall k' :: Lookup(r, k') == if k' == k then Some(v) else Lookup(h, k')
    ensures Keys(r) == if k in Keys(h) then Keys(h) else Keys(h) + [k]
  {
    if h == [] then [Entry(k, v)]
    else if h[0].key == k then [Entry(k, v)] + h[1..]
    else [h[0]] + Store(h[1..], k, v)
  }

  /** `h[k] ||= v`: stores `v` only when the current value is `nil` or `false`. */
  function OrAssign(h: seq<Entry>, k: Key, v: Value): (r: seq<Entry>)
    ensures Get(r, k) == if Truthy(Get(h, k)) then Get(h, k) else v
    ensures forall k' :: k' != k ==> Lookup(r, k') == Lookup(h, k')
    ensures Truthy(Get(h, k)) ==> r == h
    ensures Keys(r) == if k in Keys(h) then Keys(h) else Keys(h) + [k]
  {
    if Truthy(Get(h, k)) then h else Store(h, k, v)
  }

  /** `Hash#slice(*ks)`: the entries of `h` for the keys `ks`, in the order of `ks`. */
  function Slice(h: seq<Entry>, ks: seq<Key>): (r: seq<Entry>)
    ensures forall k :: Lookup(r, k) == if k in ks then Lookup(h, k) else None
  {
    if ks == [] then []
    else
      match Lookup(h, ks[0])
      case Some(v) => [Entry(ks[0], v)] + Slice(h, ks[1..])
      case None => Slice(h, ks[1..])
  }

  /** `a.merge!(b)`: every entry of `b`, in order, stored into `a`. */
  function Merge(a: seq<Entry>, b: seq<Entry>): (r: seq<Entry>)
    ensures forall k :: k !in Keys(b) ==> Lookup(r, k) == Lookup(a, k)
    decreases b
  {
    if b == [] then a
    else Merge(Store(a, b[0].key, b[0].value), b[1..])
  }

  /** `Lookup` reads the first entry stored under the key. */
  lemma {:induction false} LookupFirst(h: seq<Entry>, k: Key)
    requires k in Keys(h)
    ensures exists i :: 0 <= i < |h| && h[i] == Entry(k, Lookup(h, k).value)
                        && forall j :: 0 <= j < i ==> h[j].key != k
  {
    if h[0].key != k {
      assert Keys(h[1..]) == Keys(h)[1..];
      LookupFirst(h[1..], k);
      var i :| 0 <= i < |h[1..]| && h[1..][i] == Entry(k, Lookup(h, k).value)
               && forall j :: 0 <= j < i ==> h[1..][j].key != k;
      assert h[i + 1] == Entry(k, Lookup(h, k).value);
      forall j | 0 <= j < i + 1
        ensures h[j].key != k
      {
        if j > 0 {
          assert h[j] == h[1..][j - 1];
        }
      }
    }
  }

  /** Removing keys keeps exactly the entries whose key is not removed. */
  lemma {:induction false} WithoutMembers(h: seq<Entry>, ks: set<Key>, e: Entry)
    ensures e in Without(h, ks) <==> e in h && e.key !in ks
  {
    if h != [] {
      WithoutMembers(h[1..], ks, e);
      assert e in h <==> e == h[0] || e in h[1..];
    }
  }

  /** Removing keys that are not there changes nothing. */
  lemma {:induction false} WithoutAbsent(h: seq<Entry>, ks: set<Key>)
    requires forall k :: k in ks ==> k !in Keys(h)
    ensures Without(h, ks) == h
  {
    if h != [] {
      assert Keys(h[1..]) == Keys(h)[1..];
      WithoutAbsent(h[1..], ks);
    }
  }

  /** Storing keeps a Ruby Hash a Ruby Hash. */
  lemma StoreUnique(h: seq<Entry>, k: Key, v: Value)
    requires Unique(h)
    ensures Unique(Store(h, k, v))
  {
  }

  /** After `a.merge!(b)` every key of `b` reads `b`'s value. */
  lemma {:induction false} MergeFromArgument(a: seq<Entry>, b: seq<Entry>, k: Key)
    requires Unique(b)
    requires k in Keys(b)
    ensures Lookup(Merge(a, b), k) == Lookup(b, k)
    decreases b
  {
    var a' := Store(a, b[0].key, b[0].value);
    assert Keys(b[1..]) == Keys(b)[1..];
    if k in Keys(b[1..]) {
      MergeFromArgument(a', b[1..], k);
      assert b[0].key != k;
    }
  }

  /** `a.merge!(b)` keeps a Ruby Hash a Ruby Hash. */
  lemma {:induction false} MergeUnique(a: seq<Entry>, b: seq<Entry>)
    requires Unique(a)
    ensures Unique(Merge(a, b))
    decreases b
  {
    if b != [] {
      StoreUnique(a, b[0].key, b[0].value);
      MergeUnique(Store(a, b[0].key, b[0].value), b[1..]);
    }
  }

  /** Removing entries keeps a Ruby Hash a Ruby Hash. */
  lemma {:induction false} WithoutUnique(h: seq<Entry>, ks: set<Key>)
    requires Unique(h)
    ensures Unique(Without(h, ks))
  {
    if h != [] {
      assert Unique(h[1..]);
      WithoutUnique(h[1..], ks);
      if h[0].key !in ks {
        var rest := Without(h[1..], ks);
        forall e | e in rest
          ensures e.key != h[0].key
        {
          WithoutMembers(h[1..], ks, e);
          var i :| 0 <= i < |h[1..]| && h[1..][i] == e;
          assert h[i + 1] == e;
        }
      }
    }
  }

  /** Deleting one set of keys and then another is deleting both at once. */
  lemma {:induction false} WithoutWithout(h: seq<Entry>, ks: set<Key>, ls: set<Key>)
    ensures Without(Without(h, ks), ls) == Without(h, ks + ls)
  {
    if h != [] {
      WithoutWithout(h[1..], ks, ls);
    }
  }
}
