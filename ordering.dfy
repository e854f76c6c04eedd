/**
 * Stable ordering by an integer key, as `[...xs].sort((a, b) => a.k - b.k)` does in the
 * backend (a copy is sorted; the engine's sort is stable).
 */
module Ordering {

  predicate SortedBy<T>(s: seq<T>, key: T -> int) {
    forall i, j :: 0 <= i < j < |s| ==> key(s[i]) <= key(s[j])
  }

  /** The keys of s, in order. */
  function Keys<T>(s: seq<T>, key: T -> int): (r: seq<int>)
    ensures |r| == |s|
    ensures forall i :: 0 <= i < |s| ==> r[i] == key(s[i])
  {
    if s == [] then [] else [key(s[0])] + Keys(s[1..], key)
  }

  /** Every key in s is at least b. */
  predicate KeysAtLeast<T>(s: seq<T>, key: T -> int, b: int) {
    forall i :: 0 <= i < |s| ==> b <= key(s[i])
  }

  /** Puts x before the first element whose key is not smaller, so it precedes equal keys. */
  function Insert<T>(x: T, s: seq<T>, key: T -> int): (r: seq<T>)
    ensures |r| == |s| + 1
  {
    if s == [] then [x]
    else if key(x) <= key(s[0]) then [x] + s
    else [s[0]] + Insert(x, s[1..], key)
  }

  /** Prefixing an element no larger than the rest keeps a sequence in order. */
  lemma ConsSorted<T>(a: T, t: seq<T>, key: T -> int)
    requires SortedBy(t, key) && KeysAtLeast(t, key, key(a))
    ensures SortedBy([a] + t, key)
  {
    var r := [a] + t;
    forall i, j | 0 <= i < j < |r| ensures key(r[i]) <= key(r[j]) {
      assert r[j] == t[j - 1];
      if i > 0 {
        assert r[i] == t[i - 1];
      }
    }
  }

  /** Inserting keeps a lower bound that both x and s respect. */
  lemma {:induction false} InsertAtLeast<T>(x: T, s: seq<T>, key: T -> int, b: int)
    requires KeysAtLeast(s, key, b) && b <= key(x)
    ensures KeysAtLeast(Insert(x, s, key), key, b)
  {
    if s != [] && key(x) > key(s[0]) {
      InsertAtLeast(x, s[1..], key, b);
      var r := Insert(x, s, key);
      assert r == [s[0]] + Insert(x, s[1..], key);
      forall i | 0 <= i < |r| ensures b <= key(r[i]) {
        if i > 0 {
          assert r[i] == Insert(x, s[1..], key)[i - 1];
        }
      }
    }
  }

  /** Inserting into a key-ordered sequence keeps it key-ordered. */
  lemma {:induction false} InsertSorted<T>(x: T, s: seq<T>, key: T -> int)
    requires SortedBy(s, key)
    ensures SortedBy(Insert(x, s, key), key)
  {
    if s == [] {
    } else if key(x) <= key(s[0]) {
      assert KeysAtLeast(s, key, key(x));
      ConsSorted(x, s, key);
    } else {
      assert s == [s[0]] + s[1..];
      InsertSorted(x, s[1..], key);
      assert KeysAtLeast(s[1..], key, key(s[0]));
      InsertAtLeast(x, s[1..], key, key(s[0]));
      ConsSorted(s[0], Insert(x, s[1..], key), key);
    }
  }

  /** Inserting adds exactly x to the elements. */
  lemma {:induction false} InsertMultiset<T>(x: T, s: seq<T>, key: T -> int)
    ensures multiset(Insert(x, s, key)) == multiset(s) + multiset{x}
  {
    if s != [] && key(x) > key(s[0]) {
      InsertMultiset(x, s[1..], key);
      assert s == [s[0]] + s[1..];
    }
  }

  /** Stable insertion sort by key. */
  function SortBy<T>(s: seq<T>, key: T -> int): (r: seq<T>)
    ensures SortedBy(r, key)
    ensures multiset(r) == multiset(s)
    ensures |r| == |s|
  {
    if s == [] then []
    else
      assert s == [s[0]] + s[1..];
      var rest := SortBy(s[1..], key);
      InsertSorted(s[0], rest, key);
      InsertMultiset(s[0], rest, key);
      Insert(s[0], rest, key)
  }

  /** A key-ordered arrangement of p starts at a least key of p and ends at a greatest one, both taken from p. */
  lemma SortedEnds<T>(p: seq<T>, s: seq<T>, key: T -> int)
    requires |p| > 0 && SortedBy(s, key) && multiset(s) == multiset(p)
    ensures |s| > 0
    ensures forall k :: 0 <= k < |p| ==> key(s[0]) <= key(p[k]) <= key(s[|s| - 1])
    ensures exists k :: 0 <= k < |p| && key(p[k]) == key(s[0])
    ensures exists k :: 0 <= k < |p| && key(p[k]) == key(s[|s| - 1])
  {
    assert p[0] in multiset(s);
    forall k | 0 <= k < |p|
      ensures key(s[0]) <= key(p[k]) <= key(s[|s| - 1])
    {
      assert p[k] in multiset(s);
      var i :| 0 <= i < |s| && s[i] == p[k];
    }
    assert s[0] in multiset(p);
    var a :| 0 <= a < |p| && p[a] == s[0];
    assert s[|s| - 1] in multiset(p);
    var b :| 0 <= b < |p| && p[b] == s[|s| - 1];
  }

  /** A sequence already in key order is returned unchanged. */
  lemma {:induction false} SortByOfSorted<T>(s: seq<T>, key: T -> int)
    requires SortedBy(s, key)
    ensures SortBy(s, key) == s
  {
    if s != [] {
      SortByOfSorted(s[1..], key);
      assert SortBy(s[1..], key) == s[1..];
      if |s| > 1 {
        assert key(s[0]) <= key(s[1]);
      }
    }
  }

  /** Dropping one element keeps a sequence in order and takes exactly that element out of its multiset. */
  lemma RemoveAt<T>(b: seq<T>, j: nat, key: T -> int)
    requires j < |b| && SortedBy(b, key)
    ensures SortedBy(b[..j] + b[j + 1..], key)
    ensures multiset(b[..j] + b[j + 1..]) == multiset(b) - multiset{b[j]}
  {
    var b' := b[..j] + b[j + 1..];
    assert b == b[..j] + [b[j]] + b[j + 1..];
    forall p, q | 0 <= p < q < |b'|
      ensures key(b'[p]) <= key(b'[q])
    {
      var p' := if p < j then p else p + 1;
      var q' := if q < j then q else q + 1;
      assert b'[p] == b[p'] && b'[q] == b[q'];
    }
  }

  /** When b[0..j] all share b[j]'s key, moving b[j] to the front leaves the key sequence as it was. */
  lemma KeysAfterRemoval<T>(b: seq<T>, j: nat, key: T -> int)
    requires j < |b| && SortedBy(b, key) && key(b[0]) == key(b[j])
    ensures Keys(b, key) == [key(b[j])] + Keys(b[..j] + b[j + 1..], key)
  {
    var b' := b[..j] + b[j + 1..];
    var kb := Keys(b, key);
    var rhs := [key(b[j])] + Keys(b', key);
    forall m | 0 <= m < |kb|
      ensures kb[m] == rhs[m]
    {
      if m == 0 {
      } else if m <= j {
        assert b'[m - 1] == b[m - 1];
        assert key(b[0]) <= key(b[m]) <= key(b[j]);
        assert key(b[0]) <= key(b[m - 1]) <= key(b[j]);
      } else {
        assert b'[m - 1] == b[m];
      }
    }
  }

  /** Two key-ordered sequences holding the same elements have the same key sequence. */
  lemma {:induction false} SortedSameKeys<T>(a: seq<T>, b: seq<T>, key: T -> int)
    requires SortedBy(a, key) && SortedBy(b, key)
    requires multiset(a) == multiset(b)
    ensures Keys(a, key) == Keys(b, key)
    decreases |a|
  {
    if a == [] {
      assert |multiset(b)| == 0;
    } else {
      assert a[0] in multiset(b);
      var j :| 0 <= j < |b| && b[j] == a[0];
      assert b[0] in multiset(a);
      var i :| 0 <= i < |a| && a[i] == b[0];
      assert key(a[0]) <= key(a[i]);
      assert key(b[0]) <= key(b[j]);
      RemoveAt(b, j, key);
      assert multiset(a[1..]) == multiset(a) - multiset{a[0]} by {
        assert a == [a[0]] + a[1..];
      }
      SortedSameKeys(a[1..], b[..j] + b[j + 1..], key);
      KeysAfterRemoval(b, j, key);
    }
  }

  /** Sorting two arrangements of the same elements gives the same key sequence. */
  lemma SortByKeysPermutationInvariant<T>(a: seq<T>, b: seq<T>, key: T -> int)
    requires multiset(a) == multiset(b)
    ensures Keys(SortBy(a, key), key) == Keys(SortBy(b, key), key)
  {
    SortedSameKeys(SortBy(a, key), SortBy(b, key), key);
  }
}
