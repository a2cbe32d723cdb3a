/** Sequence helpers shared by every model module.

    JavaScript's `Array.prototype.filter` returns a new array holding the
    elements that pass a test, in their original order; `Filter` is that
    operation on values. The lemmas below characterise it independently of
    its definition: what it keeps is a subsequence of the input, every kept
    element passes the test, and every element that passes is kept as often
    as it occurs. */
module Seqs {

  function Filter<T>(s: seq<T>, keep: T -> bool): seq<T>
    decreases |s|
  {
    if s == [] then []
    else (if keep(s[0]) then [s[0]] else []) + Filter(s[1..], keep)
  }

  /** Element-wise application, the value-level reading of a `forEach` whose
      callback rewrites each record in place. */
  function Map<T, U>(s: seq<T>, f: T -> U): seq<U>
  {
    seq(|s|, i requires 0 <= i < |s| => f(s[i]))
  }

  /** r can be obtained from s by deleting elements, without reordering. */
  ghost predicate IsSubsequence<T>(r: seq<T>, s: seq<T>)
    decreases |s|
  {
    if r == [] then true
    else if s == [] then false
    else (r[0] == s[0] && IsSubsequence(r[1..], s[1..])) || IsSubsequence(r, s[1..])
  }

  lemma {:induction false} FilterLength<T>(s: seq<T>, keep: T -> bool)
    ensures |Filter(s, keep)| <= |s|
    decreases |s|
  {
    if s != [] {
      FilterLength(s[1..], keep);
    }
  }

  lemma {:induction false} FilterKeeps<T>(s: seq<T>, keep: T -> bool)
    ensures forall i :: 0 <= i < |Filter(s, keep)| ==> keep(Filter(s, keep)[i])
    decreases |s|
  {
    if s != [] {
      FilterKeeps(s[1..], keep);
      var rest := Filter(s[1..], keep);
      var head := if keep(s[0]) then [s[0]] else [];
      assert Filter(s, keep) == head + rest;
      forall i | 0 <= i < |Filter(s, keep)|
        ensures keep(Filter(s, keep)[i])
      {
        if i >= |head| {
          assert Filter(s, keep)[i] == rest[i - |head|];
        }
      }
    }
  }

  lemma {:induction false} FilterIsSubsequence<T>(s: seq<T>, keep: T -> bool)
    ensures IsSubsequence(Filter(s, keep), s)
    decreases |s|
  {
    if s != [] {
      FilterIsSubsequence(s[1..], keep);
      var r := Filter(s, keep);
      if keep(s[0]) {
        assert r[0] == s[0] && r[1..] == Filter(s[1..], keep);
      } else {
        assert r == Filter(s[1..], keep);
        if r != [] {
          assert IsSubsequence(r, s[1..]);
        }
      }
    }
  }

  /** Each value occurs in the filtered sequence exactly as often as in the
      input when it passes the test, and not at all otherwise. */
  lemma {:induction false} FilterCount<T>(s: seq<T>, keep: T -> bool, x: T)
    ensures multiset(Filter(s, keep))[x] == if keep(x) then multiset(s)[x] else 0
    decreases |s|
  {
    if s != [] {
      FilterCount(s[1..], keep, x);
      assert s == [s[0]] + s[1..];
      assert multiset(s) == multiset([s[0]]) + multiset(s[1..]);
      var head := if keep(s[0]) then [s[0]] else [];
      assert Filter(s, keep) == head + Filter(s[1..], keep);
      assert multiset(Filter(s, keep)) == multiset(head) + multiset(Filter(s[1..], keep));
    }
  }

  /** A property every input element has, every kept element has too. */
  lemma {:induction false} FilterPreserves<T>(s: seq<T>, keep: T -> bool, p: T -> bool)
    requires forall i :: 0 <= i < |s| ==> p(s[i])
    ensures forall i :: 0 <= i < |Filter(s, keep)| ==> p(Filter(s, keep)[i])
    decreases |s|
  {
    if s != [] {
      FilterPreserves(s[1..], keep, p);
      var rest := Filter(s[1..], keep);
      var head := if keep(s[0]) then [s[0]] else [];
      assert Filter(s, keep) == head + rest;
      forall i | 0 <= i < |Filter(s, keep)|
        ensures p(Filter(s, keep)[i])
      {
        if i >= |head| {
          assert Filter(s, keep)[i] == rest[i - |head|];
        }
      }
    }
  }

  /** r holds exactly the elements of s that pass the test: in their order,
      each as often as in s. */
  ghost predicate ExactlyKept<T(!new)>(r: seq<T>, s: seq<T>, keep: T -> bool) {
    && IsSubsequence(r, s)
    && (forall i :: 0 <= i < |r| ==> keep(r[i]))
    && (forall x :: multiset(r)[x] == (if keep(x) then multiset(s)[x] else 0))
  }

  lemma FilterExactlyKept<T(!new)>(s: seq<T>, keep: T -> bool)
    ensures ExactlyKept(Filter(s, keep), s, keep)
  {
    FilterIsSubsequence(s, keep);
    FilterKeeps(s, keep);
    forall x {
      FilterCount(s, keep, x);
    }
  }

  /** When nothing fails the test, filtering changes nothing. */
  lemma {:induction false} FilterAllKept<T>(s: seq<T>, keep: T -> bool)
    requires forall i :: 0 <= i < |s| ==> keep(s[i])
    ensures Filter(s, keep) == s
    decreases |s|
  {
    if s != [] {
      FilterAllKept(s[1..], keep);
      assert s == [s[0]] + s[1..];
    }
  }

  /** When everything fails the test, nothing is kept. */
  lemma {:induction false} FilterNoneKept<T>(s: seq<T>, keep: T -> bool)
    requires forall i :: 0 <= i < |s| ==> !keep(s[i])
    ensures Filter(s, keep) == []
    decreases |s|
  {
    if s != [] {
      FilterNoneKept(s[1..], keep);
    }
  }

  lemma {:induction false} FilterAppend<T>(s: seq<T>, t: seq<T>, keep: T -> bool)
    ensures Filter(s + t, keep) == Filter(s, keep) + Filter(t, keep)
    decreases |s|
  {
    if s == [] {
      assert s + t == t;
    } else {
      var st := s + t;
      assert st[0] == s[0];
      assert st[1..] == s[1..] + t;
      FilterAppend(s[1..], t, keep);
      var head := if keep(s[0]) then [s[0]] else [];
      assert Filter(st, keep) == head + (Filter(s[1..], keep) + Filter(t, keep));
      assert Filter(s, keep) == head + Filter(s[1..], keep);
    }
  }

  /** The last n elements of s (all of s when it is shorter). */
  function LastN<T>(s: seq<T>, n: nat): (r: seq<T>)
    ensures |r| == if |s| <= n then |s| else n
  {
    if |s| <= n then s else s[|s| - n..]
  }

  /** Keeping the last n of a window that already held the last n elements
      of a history, after appending x, is the same as keeping the last n of
      the extended history: a bounded first-in first-out window. */
  lemma {:induction false} LastNSlide<T>(h: seq<T>, x: T, n: nat)
    requires n > 0
    ensures LastN(LastN(h, n) + [x], n) == LastN(h + [x], n)
  {
    if |h| > n {
      var w := h[|h| - n..];
      assert |w + [x]| == n + 1;
      assert LastN(w + [x], n) == (w + [x])[1..];
      assert (h + [x])[|h| + 1 - n..] == (w + [x])[1..];
    }
  }

  // ---------------------------------------------------------------------
  // Keys in insertion order, walked cyclically

  function IndexOf<T(==)>(keys: seq<T>, key: T): (i: nat)
    requires key in keys
    ensures i < |keys| && keys[i] == key
    ensures forall j :: 0 <= j < i ==> keys[j] != key
  {
    if keys[0] == key then 0 else 1 + IndexOf(keys[1..], key)
  }

  ghost predicate Distinct<T>(keys: seq<T>) {
    forall i, j :: 0 <= i < j < |keys| ==> keys[i] != keys[j]
  }

  /** The index after i in a cyclic walk over n positions. */
  function Succ(i: nat, n: nat): (j: nat)
    requires i < n
    ensures j < n
  {
    if i + 1 < n then i + 1 else 0
  }

  /** Succ is the `(i + 1) % n` of the source. */
  lemma SuccIsMod(i: nat, n: nat)
    requires i < n
    ensures Succ(i, n) == (i + 1) % n
  {
    if i + 1 == n {
      ModSelf(n);
    }
  }

  /** The key after key in the cyclic order of keys. */
  function NextKey<T(==)>(keys: seq<T>, key: T): T
    requires key in keys
  {
    keys[Succ(IndexOf(keys, key), |keys|)]
  }

  /** The key reached after n steps. */
  function NextKeyN<T(==)>(keys: seq<T>, key: T, n: nat): (k: T)
    requires key in keys
    ensures k in keys
    decreases n
  {
    if n == 0 then key else NextKey(keys, NextKeyN(keys, key, n - 1))
  }

  lemma ModSelf(m: nat)
    requires m > 0
    ensures m % m == 0
  {
  }

  /** One switch moves from the song at index j to the one after it, and
      from the last song to the first. */
  lemma NextKeyStep<T>(keys: seq<T>, j: nat)
    requires Distinct(keys) && j < |keys|
    ensures NextKey(keys, keys[j]) == keys[if j + 1 < |keys| then j + 1 else 0]
  {
    assert IndexOf(keys, keys[j]) == j;
  }

  /** switchToNextSong walks the keys in insertion order. */
  lemma {:induction false} NextKeyWalks<T>(keys: seq<T>, i: nat, n: nat)
    requires Distinct(keys) && i + n < |keys|
    ensures NextKeyN(keys, keys[i], n) == keys[i + n]
    decreases n
  {
    if n > 0 {
      NextKeyWalks(keys, i, n - 1);
      NextKeyStep(keys, i + n - 1);
    }
  }

  /** Past the last key the walk goes on from the first one. */
  lemma {:induction false} NextKeyWraps<T>(keys: seq<T>, i: nat, n: nat)
    requires Distinct(keys) && i < |keys| && |keys| <= i + n <= i + |keys|
    ensures NextKeyN(keys, keys[i], n) == keys[i + n - |keys|]
    decreases n
  {
    var last := |keys| - 1;
    if i + n == |keys| {
      NextKeyWalks(keys, i, n - 1);
      NextKeyStep(keys, last);
    } else {
      NextKeyWraps(keys, i, n - 1);
      NextKeyStep(keys, i + n - 1 - |keys|);
    }
  }

  /** After as many switches as there are keys, the walk is back where it
      started. */
  lemma NextKeyCycle<T>(keys: seq<T>, i: nat)
    requires Distinct(keys) && i < |keys|
    ensures NextKeyN(keys, keys[i], |keys|) == keys[i]
  {
    NextKeyWraps(keys, i, |keys|);
  }
}
