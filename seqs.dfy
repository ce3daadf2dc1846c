/**
 * The array helpers the shop leans on everywhere: `filter`, `findIndex`,
 * `find`, and `filter` on a key (the way every `delete*` and `remove*` is
 * written). Lookups take a NAMED key function (`ProductId`, `CartOwner`, ...)
 * so that two calls with the same key are the same term to the verifier.
 */
module Seqs {
  import opened Wrappers

  /** `Array.prototype.filter`: the elements that satisfy `keep`, in order. */
  function Filter<T>(s: seq<T>, keep: T -> bool): (r: seq<T>)
    ensures |r| <= |s|
    ensures forall x | x in r :: x in s && keep(x)
    ensures forall i | 0 <= i < |s| && keep(s[i]) :: s[i] in r
  {
    if |s| == 0 then [] else (if keep(s[0]) then [s[0]] else []) + Filter(s[1..], keep)
  }

  /** `r` is obtained from `s` by deleting elements, the rest staying in order. */
  ghost predicate IsSubsequence<T>(r: seq<T>, s: seq<T>)
    decreases |s|
  {
    if |r| == 0 then true
    else if |s| == 0 then false
    else (r[0] == s[0] && IsSubsequence(r[1..], s[1..])) || IsSubsequence(r, s[1..])
  }

  lemma {:induction false} SubsequenceReflexive<T>(s: seq<T>)
    ensures IsSubsequence(s, s)
  {
    if |s| > 0 {
      SubsequenceReflexive(s[1..]);
    }
  }

  /** Splicing out one element (`splice(i, 1)`) keeps the rest in order. */
  lemma {:induction false} SpliceIsSubsequence<T>(s: seq<T>, i: nat)
    requires i < |s|
    ensures IsSubsequence(s[..i] + s[i + 1..], s)
    decreases i
  {
    var r := s[..i] + s[i + 1..];
    if i == 0 {
      assert r == s[1..];
      SubsequenceReflexive(s[1..]);
    } else {
      assert r[0] == s[0];
      assert r[1..] == s[1..][..i - 1] + s[1..][i..];
      SpliceIsSubsequence(s[1..], i - 1);
    }
  }

  lemma {:induction false} FilterIsSubsequence<T>(s: seq<T>, keep: T -> bool)
    ensures IsSubsequence(Filter(s, keep), s)
  {
    if |s| > 0 {
      FilterIsSubsequence(s[1..], keep);
      if keep(s[0]) {
        assert Filter(s, keep)[1..] == Filter(s[1..], keep);
      } else {
        assert Filter(s, keep) == Filter(s[1..], keep);
      }
    }
  }

  lemma {:induction false} FilterAppend<T>(a: seq<T>, b: seq<T>, keep: T -> bool)
    ensures Filter(a + b, keep) == Filter(a, keep) + Filter(b, keep)
  {
    if |a| == 0 {
      assert a + b == b;
    } else {
      assert (a + b)[1..] == a[1..] + b;
      FilterAppend(a[1..], b, keep);
    }
  }

  /** Filtering a list whose every element passes gives the list back. */
  lemma {:induction false} FilterKeepsAll<T>(s: seq<T>, keep: T -> bool)
    requires forall i :: 0 <= i < |s| ==> keep(s[i])
    ensures Filter(s, keep) == s
  {
    if |s| > 0 {
      FilterKeepsAll(s[1..], keep);
    }
  }

  /** Nothing kept, nothing left. */
  lemma {:induction false} FilterNoneKept<T>(s: seq<T>, keep: T -> bool)
    requires forall i :: 0 <= i < |s| ==> !keep(s[i])
    ensures Filter(s, keep) == []
  {
    if |s| > 0 {
      assert forall i :: 0 <= i < |s[1..]| ==> !keep(s[1..][i]) by {
        forall i | 0 <= i < |s[1..]| ensures !keep(s[1..][i]) {
          assert s[1..][i] == s[i + 1];
        }
      }
      FilterNoneKept(s[1..], keep);
    }
  }

  /** Two complementary filters split the list between them. */
  lemma {:induction false} FilterComplementLength<T>(s: seq<T>, keep: T -> bool, drop: T -> bool)
    requires forall i :: 0 <= i < |s| ==> drop(s[i]) == !keep(s[i])
    ensures |Filter(s, keep)| + |Filter(s, drop)| == |s|
  {
    if |s| > 0 {
      FilterComplementLength(s[1..], keep, drop);
    }
  }

  /** How many elements of `s` satisfy `keep` (the length of the filtered list). */
  function Count<T>(s: seq<T>, keep: T -> bool): nat
  {
    |Filter(s, keep)|
  }

  /** Replacing one element changes the count by that element only. */
  lemma CountUpdate<T>(s: seq<T>, i: nat, x: T, keep: T -> bool)
    requires i < |s|
    ensures Count(s[i := x], keep) + (if keep(s[i]) then 1 else 0)
         == Count(s, keep) + (if keep(x) then 1 else 0)
  {
    assert s == s[..i] + [s[i]] + s[i + 1..];
    assert s[i := x] == s[..i] + [x] + s[i + 1..];
    FilterAppend(s[..i] + [s[i]], s[i + 1..], keep);
    FilterAppend(s[..i], [s[i]], keep);
    FilterAppend(s[..i] + [x], s[i + 1..], keep);
    FilterAppend(s[..i], [x], keep);
  }

  /** Removing one element (`splice(i, 1)`) lowers the count by that element only. */
  lemma CountRemove<T>(s: seq<T>, i: nat, keep: T -> bool)
    requires i < |s|
    ensures Count(s[..i] + s[i + 1..], keep) + (if keep(s[i]) then 1 else 0) == Count(s, keep)
  {
    assert s == s[..i] + [s[i]] + s[i + 1..];
    FilterAppend(s[..i] + [s[i]], s[i + 1..], keep);
    FilterAppend(s[..i], [s[i]], keep);
    FilterAppend(s[..i], s[i + 1..], keep);
  }

  /** `Array.prototype.findIndex` on a key: the first index whose key is `k`, or -1. */
  function FindIndex<T, K(==)>(s: seq<T>, key: T -> K, k: K): (r: int)
    ensures -1 <= r < |s|
    ensures r == -1 <==> forall i :: 0 <= i < |s| ==> key(s[i]) != k
    ensures 0 <= r ==> key(s[r]) == k && forall j :: 0 <= j < r ==> key(s[j]) != k
  {
    if |s| == 0 then -1
    else if key(s[0]) == k then 0
    else
      var i := FindIndex(s[1..], key, k);
      if i == -1 then -1 else i + 1
  }

  /** `Array.prototype.find` on a key: the first element whose key is `k`. */
  function Find<T, K(==)>(s: seq<T>, key: T -> K, k: K): (r: Option<T>)
    ensures r.None? <==> forall i :: 0 <= i < |s| ==> key(s[i]) != k
    ensures r.Some? ==> 0 <= FindIndex(s, key, k) && r.value == s[FindIndex(s, key, k)] && key(r.value) == k
  {
    var i := FindIndex(s, key, k);
    if i == -1 then None else Some(s[i])
  }

  /** The first index of a key does not move when that index is rewritten with the same key. */
  lemma FindIndexAfterUpdate<T, K>(s: seq<T>, key: T -> K, k: K, i: nat, x: T)
    requires i < |s| && FindIndex(s, key, k) == i && key(x) == k
    ensures FindIndex(s[i := x], key, k) == i
  {
    var t := s[i := x];
    forall j | 0 <= j < i ensures key(t[j]) != k {
      assert t[j] == s[j];
    }
    assert key(t[i]) == k;
  }

  /** Rewriting an element whose key is not `k` with one whose key is not `k` keeps the lookup of `k`. */
  lemma FindIndexAfterOtherUpdate<T, K>(s: seq<T>, key: T -> K, k: K, i: nat, x: T)
    requires i < |s| && key(s[i]) != k && key(x) != k
    ensures FindIndex(s[i := x], key, k) == FindIndex(s, key, k)
  {
    var t := s[i := x];
    forall j | 0 <= j < |s| ensures (key(t[j]) == k) == (key(s[j]) == k) {
      if j != i {
        assert t[j] == s[j];
      }
    }
  }

  /** Appending keeps an existing first match; otherwise the new element is the match if its key is `k`. */
  lemma FindIndexAfterAppend<T, K>(s: seq<T>, key: T -> K, k: K, x: T)
    ensures FindIndex(s + [x], key, k) ==
      (if FindIndex(s, key, k) != -1 then FindIndex(s, key, k)
       else if key(x) == k then |s| else -1)
  {
    var t := s + [x];
    forall j | 0 <= j < |s| ensures (key(t[j]) == k) == (key(s[j]) == k) {
      assert t[j] == s[j];
    }
    assert t[|s|] == x;
  }

  /** The records whose key is not `k`, in order. */
  function Without<T, K(==)>(s: seq<T>, key: T -> K, k: K): (r: seq<T>)
    ensures |r| <= |s|
  {
    if |s| == 0 then []
    else (if key(s[0]) != k then [s[0]] else []) + Without(s[1..], key, k)
  }

  /** Exactly the records whose key is not `k` survive. */
  lemma {:induction false} WithoutMembers<T, K>(s: seq<T>, key: T -> K, k: K)
    ensures forall x | x in Without(s, key, k) :: x in s && key(x) != k
    ensures forall i | 0 <= i < |s| && key(s[i]) != k :: s[i] in Without(s, key, k)
  {
    if |s| > 0 {
      var rest := Without(s[1..], key, k);
      WithoutMembers(s[1..], key, k);
      assert Without(s, key, k) == (if key(s[0]) != k then [s[0]] else []) + rest;
      forall i | 0 < i < |s| ensures s[i] == s[1..][i - 1] {
      }
    }
  }

  /** Nothing is removed when no record has the key, and something is removed otherwise. */
  lemma {:induction false} WithoutShrinks<T, K>(s: seq<T>, key: T -> K, k: K)
    ensures FindIndex(s, key, k) == -1 ==> Without(s, key, k) == s
    ensures |Without(s, key, k)| < |s| <==> FindIndex(s, key, k) != -1
  {
    if |s| > 0 {
      var rest := Without(s[1..], key, k);
      var i := FindIndex(s[1..], key, k);
      WithoutShrinks(s[1..], key, k);
      assert Without(s, key, k) == (if key(s[0]) != k then [s[0]] else []) + rest;
      assert FindIndex(s, key, k) == if key(s[0]) == k then 0 else if i == -1 then -1 else i + 1;
      if key(s[0]) != k && i == -1 {
        assert s == [s[0]] + s[1..];
      }
    }
  }

  lemma {:induction false} WithoutIsSubsequence<T, K>(s: seq<T>, key: T -> K, k: K)
    ensures IsSubsequence(Without(s, key, k), s)
  {
    if |s| > 0 {
      WithoutIsSubsequence(s[1..], key, k);
      if key(s[0]) != k {
        assert Without(s, key, k)[1..] == Without(s[1..], key, k);
      } else {
        assert Without(s, key, k) == Without(s[1..], key, k);
      }
    }
  }

  lemma {:induction false} WithoutAppend<T, K>(a: seq<T>, b: seq<T>, key: T -> K, k: K)
    ensures Without(a + b, key, k) == Without(a, key, k) + Without(b, key, k)
  {
    if |a| == 0 {
      assert a + b == b;
    } else {
      assert (a + b)[1..] == a[1..] + b;
      WithoutAppend(a[1..], b, key, k);
    }
  }

  /** Removing a key twice is the same as removing it once. */
  lemma WithoutIdempotent<T, K>(s: seq<T>, key: T -> K, k: K)
    ensures Without(Without(s, key, k), key, k) == Without(s, key, k)
  {
    var r := Without(s, key, k);
    WithoutMembers(s, key, k);
    forall i | 0 <= i < |r| ensures key(r[i]) != k {
      assert r[i] in r;
    }
    WithoutShrinks(r, key, k);
  }
}
