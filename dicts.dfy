/**
 * A Python dict with string keys, as the list of its items in insertion order,
 * and `sorted(d.items())`: Python's `<` on strings (code-point lexicographic
 * order) and a sort by key proved to be sorted and a permutation of the items.
 */
module Dicts {
  import opened Wrappers

  type Items<V> = seq<(string, V)>

  /** Every key occurs once, as in a dict. */
  predicate UniqueKeys<V>(d: Items<V>)
  {
    forall i, j :: 0 <= i < j < |d| ==> d[i].0 != d[j].0
  }

  predicate HasKey<V>(d: Items<V>, k: string)
  {
    k in Keys(d)
  }

  /** `d.get(k)` */
  function Lookup<V>(d: Items<V>, k: string): (r: Option<V>)
    ensures r.Some? <==> HasKey(d, k)
    ensures r.Some? ==> (k, r.value) in d
  {
    if d == [] then None
    else if d[0].0 == k then Some(d[0].1)
    else Lookup(d[1..], k)
  }

  /** In a dict, an item is present exactly when `get` of its key returns its value. */
  lemma {:induction false} LookupUnique<V>(d: Items<V>, k: string, v: V)
    requires UniqueKeys(d)
    ensures (k, v) in d <==> Lookup(d, k) == Some(v)
  {
    if d != [] && d[0].0 != k {
      LookupUnique(d[1..], k, v);
    }
  }

  /** In a dict, `get` of the key at position `i` returns the value at position `i`. */
  lemma LookupAt<V>(d: Items<V>, i: int)
    requires UniqueKeys(d)
    requires 0 <= i < |d|
    ensures Lookup(d, d[i].0) == Some(d[i].1)
  {
    LookupUnique(d, d[i].0, d[i].1);
  }

  /** The keys of a dict in insertion order. */
  function Keys<V>(d: Items<V>): (ks: seq<string>)
    ensures |ks| == |d|
    ensures forall i :: 0 <= i < |d| ==> ks[i] == d[i].0
  {
    if d == [] then [] else [d[0].0] + Keys(d[1..])
  }

  /** `d[k] = v`: replaces the value in place if `k` is present, appends otherwise. */
  function Put<V>(d: Items<V>, k: string, v: V): (r: Items<V>)
    ensures !HasKey(d, k) ==> r == d + [(k, v)]
    ensures Lookup(r, k) == Some(v)
  {
    if d == [] then [(k, v)]
    else if d[0].0 == k then [(k, v)] + d[1..]
    else [d[0]] + Put(d[1..], k, v)
  }

  /** `d[k] = v` keeps the insertion order of the keys; a new key goes last. */
  lemma {:induction false} PutKeys<V>(d: Items<V>, k: string, v: V)
    ensures Keys(Put(d, k, v)) == if HasKey(d, k) then Keys(d) else Keys(d) + [k]
  {
    if d != [] && d[0].0 != k {
      PutKeys(d[1..], k, v);
      assert Keys(d) == [d[0].0] + Keys(d[1..]);
      assert HasKey(d, k) == HasKey(d[1..], k);
      assert Keys(Put(d, k, v)) == [d[0].0] + Keys(Put(d[1..], k, v));
    } else if d != [] {
      assert Keys(d)[0] == k;
      assert Keys(Put(d, k, v)) == [k] + Keys(d[1..]);
    }
  }

  /** `d[k] = v` leaves every other key's value alone. */
  lemma {:induction false} PutOther<V>(d: Items<V>, k: string, v: V, k': string)
    requires k' != k
    ensures Lookup(Put(d, k, v), k') == Lookup(d, k')
  {
    if d != [] && d[0].0 != k {
      PutOther(d[1..], k, v, k');
    }
  }

  /** `d[k] = v` keeps the keys of a dict unique. */
  lemma PutUnique<V>(d: Items<V>, k: string, v: V)
    requires UniqueKeys(d)
    ensures UniqueKeys(Put(d, k, v))
  {
    PutKeys(d, k, v);
    var r := Put(d, k, v);
    forall i, j | 0 <= i < j < |r| ensures r[i].0 != r[j].0 {
      assert Keys(r)[i] == r[i].0 && Keys(r)[j] == r[j].0;
      if j == |d| {
        assert Keys(r)[j] == k && !HasKey(d, k);
        assert Keys(d)[i] == d[i].0;
      } else {
        assert Keys(d)[i] == d[i].0 && Keys(d)[j] == d[j].0;
      }
    }
  }

  /** `[n for n in names if n not in keys]`: the names that are not keys, in order. */
  function MissingKeys(names: seq<string>, keys: set<string>): (m: seq<string>)
    ensures |m| <= |names|
  {
    if names == [] then []
    else (if names[0] in keys then [] else [names[0]]) + MissingKeys(names[1..], keys)
  }

  /** A name is reported missing exactly when it is one of the names and not a key. */
  lemma {:induction false} MissingKeysMembers(names: seq<string>, keys: set<string>)
    ensures forall n :: n in MissingKeys(names, keys) <==> n in names && n !in keys
  {
    if names != [] {
      MissingKeysMembers(names[1..], keys);
      assert names == [names[0]] + names[1..];
    }
  }

  /** Nothing is missing exactly when every name is a key. */
  lemma {:induction false} MissingKeysEmpty(names: seq<string>, keys: set<string>)
    ensures MissingKeys(names, keys) == [] <==> forall n :: n in names ==> n in keys
  {
    if names != [] {
      MissingKeysEmpty(names[1..], keys);
      assert names == [names[0]] + names[1..];
    }
  }

  /** Python `a < b` on strings: code-point lexicographic order. */
  predicate StrLt(a: string, b: string)
  {
    if a == [] then b != []
    else b != [] && (a[0] < b[0] || (a[0] == b[0] && StrLt(a[1..], b[1..])))
  }

  lemma {:induction false} StrLtIrreflexive(a: string)
    ensures !StrLt(a, a)
  {
    if a != [] {
      StrLtIrreflexive(a[1..]);
    }
  }

  lemma {:induction false} StrLtTransitive(a: string, b: string, c: string)
    requires StrLt(a, b) && StrLt(b, c)
    ensures StrLt(a, c)
  {
    if a != [] && a[0] == b[0] && b[0] == c[0] {
      StrLtTransitive(a[1..], b[1..], c[1..]);
    }
  }

  lemma {:induction false} StrLtTotal(a: string, b: string)
    requires a != b
    ensures StrLt(a, b) || StrLt(b, a)
  {
    if a != [] && b != [] && a[0] == b[0] {
      assert a == [a[0]] + a[1..] && b == [b[0]] + b[1..];
      StrLtTotal(a[1..], b[1..]);
    }
  }

  /** Strictly increasing keys: what `sorted(d.items())` yields for a dict. */
  predicate SortedByKey<V>(d: Items<V>)
  {
    forall i, j :: 0 <= i < j < |d| ==> StrLt(d[i].0, d[j].0)
  }

  function Insert<V>(x: (string, V), s: Items<V>): (r: Items<V>)
    ensures multiset(r) == multiset(s) + multiset{x}
    ensures |r| == |s| + 1
  {
    if s == [] then [x]
    else if StrLt(x.0, s[0].0) then [x] + s
    else
      assert s == [s[0]] + s[1..];
      [s[0]] + Insert(x, s[1..])
  }

  /** `sorted(d.items())` for a dict `d`. */
  function SortByKey<V>(d: Items<V>): (r: Items<V>)
    ensures multiset(r) == multiset(d)
    ensures |r| == |d|
  {
    if d == [] then []
    else
      assert d == [d[0]] + d[1..];
      Insert(d[0], SortByKey(d[1..]))
  }

  lemma {:induction false} InsertSorted<V>(x: (string, V), s: Items<V>)
    requires SortedByKey(s)
    requires forall e :: e in s ==> e.0 != x.0
    ensures SortedByKey(Insert(x, s))
  {
    if s == [] {
    } else if StrLt(x.0, s[0].0) {
      forall e | e in s ensures StrLt(x.0, e.0) {
        var j :| 0 <= j < |s| && s[j] == e;
        if j > 0 {
          StrLtTransitive(x.0, s[0].0, e.0);
        }
      }
      ConsSorted(x, s);
    } else {
      assert s[0] in s;
      StrLtTotal(x.0, s[0].0);
      forall e | e in s[1..] ensures e.0 != x.0 {
        assert e in s;
      }
      assert SortedByKey(s[1..]) by {
        forall i, j | 0 <= i < j < |s[1..]| ensures StrLt(s[1..][i].0, s[1..][j].0) {
          assert s[1..][i] == s[i + 1] && s[1..][j] == s[j + 1];
        }
      }
      InsertSorted(x, s[1..]);
      var tail := Insert(x, s[1..]);
      forall e | e in tail ensures StrLt(s[0].0, e.0) {
        assert e in multiset(tail);
        if e != x {
          assert e in multiset(s[1..]);
          var j :| 0 <= j < |s[1..]| && s[1..][j] == e;
          assert s[j + 1] == e;
        }
      }
      ConsSorted(s[0], tail);
    }
  }

  /** An item whose key is below every key of a sorted list can go in front of it. */
  lemma ConsSorted<V>(h: (string, V), tail: Items<V>)
    requires SortedByKey(tail)
    requires forall e :: e in tail ==> StrLt(h.0, e.0)
    ensures SortedByKey([h] + tail)
  {
    var r := [h] + tail;
    forall i, j | 0 <= i < j < |r| ensures StrLt(r[i].0, r[j].0) {
      assert r[j] == tail[j - 1];
      if i == 0 {
        assert r[j] in tail;
      } else {
        assert r[i] == tail[i - 1];
      }
    }
  }

  /** Sorting a dict's items gives strictly increasing keys. */
  lemma {:induction false} SortByKeySorted<V>(d: Items<V>)
    requires UniqueKeys(d)
    ensures SortedByKey(SortByKey(d))
  {
    if d != [] {
      assert UniqueKeys(d[1..]) by {
        forall i, j | 0 <= i < j < |d[1..]| ensures d[1..][i].0 != d[1..][j].0 {
          assert d[1..][i] == d[i + 1] && d[1..][j] == d[j + 1];
        }
      }
      SortByKeySorted(d[1..]);
      var rest := SortByKey(d[1..]);
      forall e | e in rest ensures e.0 != d[0].0 {
        assert e in multiset(rest);
        assert e in multiset(d[1..]);
        var j :| 0 <= j < |d[1..]| && d[1..][j] == e;
        assert d[j + 1] == e;
      }
      InsertSorted(d[0], rest);
    }
  }

  /** An item is in the sorted list exactly when it is in the dict. */
  lemma SortByKeyMembers<V>(d: Items<V>, e: (string, V))
    ensures e in SortByKey(d) <==> e in d
  {
    assert e in SortByKey(d) <==> e in multiset(SortByKey(d));
    assert e in d <==> e in multiset(d);
  }

  /** The dict as a map from its keys to their values. */
  function ToMap<V>(d: Items<V>): (m: map<string, V>)
    ensures forall k :: k in m <==> HasKey(d, k)
    ensures forall k :: k in m ==> Lookup(d, k) == Some(m[k])
  {
    if d == [] then map[] else ToMap(d[1..])[d[0].0 := d[0].1]
  }

  /** A mutable Python dict with string keys, updated in place by `d[k] = v`. */
  class Dict<V> {
    var items: Items<V>

    constructor(init: Items<V>)
      ensures items == init
    {
      items := init;
    }

    /** `d.get(k)` */
    function Get(k: string): Option<V>
      reads this
    {
      Lookup(items, k)
    }

    /** `d[k] = v` */
    method Set(k: string, v: V)
      modifies this
      ensures items == Put(old(items), k, v)
    {
      items := Put(items, k, v);
    }
  }
}
