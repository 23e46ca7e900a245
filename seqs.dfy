/**
 * Sequence helpers shared by the orchestrator and the offline analyzer:
 * distinctness, first-appearance de-duplication (`pandas.Series.unique`,
 * the key order of a Python dict), selection of the rows with a given key
 * (a boolean DataFrame mask), grouping, and Python's string ordering.
 *
 * Most definitions recurse on the LAST element, so that a loop which walks a
 * sequence from the front extends them one element at a time.
 */
module Seqs {

  ghost predicate Distinct<T>(s: seq<T>) {
    forall i, j :: 0 <= i < j < |s| ==> s[i] != s[j]
  }

  /** A prefix extended by the next element is the next prefix. */
  lemma TakeSnoc<T>(s: seq<T>, i: int)
    requires 0 <= i < |s|
    ensures s[..i] + [s[i]] == s[..i + 1]
  {
  }

  /** The prefix of full length is the whole sequence. */
  lemma TakeAll<T>(s: seq<T>)
    ensures s[..|s|] == s
  {
  }

  /** In a sequence without repetitions, an element does not occur before its own position. */
  lemma DistinctFresh<T>(s: seq<T>, i: int)
    requires Distinct(s) && 0 <= i < |s|
    ensures s[i] !in s[..i]
  {
    forall j | 0 <= j < i ensures s[..i][j] != s[i] {
      assert s[..i][j] == s[j];
    }
  }

  /** Appending an element not yet present keeps a sequence free of repetitions. */
  lemma DistinctSnoc<T>(s: seq<T>, x: T)
    requires Distinct(s) && x !in s
    ensures Distinct(s + [x])
  {
    var t := s + [x];
    forall a, b | 0 <= a < b < |t| ensures t[a] != t[b] {
      assert t[a] == s[a] && s[a] in s;
      if b < |s| {
        assert t[b] == s[b];
      }
    }
  }

  /** The key of every element, in order (the column `df[key]`). */
  function Keys<T, K>(s: seq<T>, key: T -> K): (r: seq<K>)
    ensures |r| == |s|
    ensures forall i :: 0 <= i < |s| ==> r[i] == key(s[i])
  {
    if |s| == 0 then [] else Keys(s[..|s| - 1], key) + [key(s[|s| - 1])]
  }

  /** The distinct elements of `s`, in order of first appearance. */
  function Unique<T(==,!new)>(s: seq<T>): (r: seq<T>)
    ensures Distinct(r)
    ensures forall x :: x in r <==> x in s
    ensures |r| <= |s|
  {
    if |s| == 0 then []
    else
      var u := Unique(s[..|s| - 1]);
      assert forall x :: x in s <==> x in s[..|s| - 1] || x == s[|s| - 1];
      if s[|s| - 1] in u then u else u + [s[|s| - 1]]
  }

  /** The index of the first occurrence of `x` in `s`. */
  function FirstIndex<T(==)>(s: seq<T>, x: T): (i: nat)
    requires x in s
    ensures i < |s| && s[i] == x
    ensures forall j :: 0 <= j < i ==> s[j] != x
  {
    var n := |s| - 1;
    assert x in s[..n] || s[n] == x;
    if x in s[..n] then FirstIndex(s[..n], x) else n
  }

  /** `Unique` lists the elements in the order of their first occurrence in `s`. */
  lemma {:induction false} UniqueFirstAppearance<T(!new)>(s: seq<T>)
    ensures forall i, j :: 0 <= i < j < |Unique(s)| ==>
      FirstIndex(s, Unique(s)[i]) < FirstIndex(s, Unique(s)[j])
  {
    if |s| > 0 {
      var p, last := s[..|s| - 1], s[|s| - 1];
      assert s == p + [last];
      UniqueFirstAppearance(p);
      var u := Unique(p);
      forall y | y in p ensures FirstIndex(s, y) == FirstIndex(p, y) {
        FirstIndexOfPrefix(p, last, y);
      }
      if last !in u {
        assert FirstIndex(s, last) == |p|;
      }
    }
  }

  lemma FirstIndexOfPrefix<T>(p: seq<T>, last: T, y: T)
    requires y in p
    ensures FirstIndex(p + [last], y) == FirstIndex(p, y)
  {
    assert (p + [last])[..|p|] == p;
  }

  /** The elements whose key is `k`, in their original order (`df[df[key] == k]`). */
  function Select<T(!new), K(==)>(s: seq<T>, key: T -> K, k: K): (r: seq<T>)
    ensures |r| <= |s|
    ensures forall x :: x in r <==> x in s && key(x) == k
  {
    if |s| == 0 then []
    else
      var p := Select(s[..|s| - 1], key, k);
      assert forall x :: x in s <==> x in s[..|s| - 1] || x == s[|s| - 1];
      if key(s[|s| - 1]) == k then p + [s[|s| - 1]] else p
  }

  /** Selecting from a sequence extended by one element. */
  lemma SelectSnoc<T(!new), K>(s: seq<T>, key: T -> K, k: K, x: T)
    ensures Select(s + [x], key, k) == if key(x) == k then Select(s, key, k) + [x] else Select(s, key, k)
  {
    assert (s + [x])[..|s|] == s;
  }

  /** The positions of `s` whose key is `k`, in ascending order. */
  function Matching<T, K(==)>(s: seq<T>, key: T -> K, k: K): (idx: seq<nat>)
    ensures forall j :: 0 <= j < |idx| ==> idx[j] < |s| && key(s[idx[j]]) == k
    ensures forall j, l :: 0 <= j < l < |idx| ==> idx[j] < idx[l]
    ensures forall i :: 0 <= i < |s| && key(s[i]) == k ==> i in idx
  {
    if |s| == 0 then []
    else
      var p := Matching(s[..|s| - 1], key, k);
      assert forall i :: 0 <= i < |s| - 1 ==> s[..|s| - 1][i] == s[i];
      if key(s[|s| - 1]) == k then p + [|s| - 1] else p
  }

  /**
   * `Select` keeps exactly the matching elements, each occurrence once, in
   * their original order: its `j`-th element is the one at the `j`-th matching position.
   */
  lemma {:induction false} SelectAt<T(!new), K>(s: seq<T>, key: T -> K, k: K)
    ensures |Select(s, key, k)| == |Matching(s, key, k)|
    ensures forall j :: 0 <= j < |Matching(s, key, k)| ==> Select(s, key, k)[j] == s[Matching(s, key, k)[j]]
  {
    if |s| > 0 {
      var p := s[..|s| - 1];
      SelectAt(p, key, k);
      var sp, mp := Select(p, key, k), Matching(p, key, k);
      forall j | 0 <= j < |mp| ensures sp[j] == s[mp[j]] {
        assert p[mp[j]] == s[mp[j]];
      }
    }
  }

  /** Each value occurs in the selection as often as in `s` when its key is `k`, and not at all otherwise. */
  lemma {:induction false} SelectCount<T(!new), K>(s: seq<T>, key: T -> K, k: K)
    ensures forall x :: multiset(Select(s, key, k))[x] == if key(x) == k then multiset(s)[x] else 0
  {
    if |s| > 0 {
      var p := s[..|s| - 1];
      SelectCount(p, key, k);
      assert s == p + [s[|s| - 1]];
    }
  }

  lemma KeysSnoc<T, K>(s: seq<T>, key: T -> K, x: T)
    ensures Keys(s + [x], key) == Keys(s, key) + [key(x)]
  {
    assert (s + [x])[..|s|] == s;
  }

  /** De-duplicating a sequence extended by one element. */
  lemma UniqueSnoc<T(!new)>(s: seq<T>, x: T)
    ensures Unique(s + [x]) == if x in Unique(s) then Unique(s) else Unique(s) + [x]
  {
    assert (s + [x])[..|s|] == s;
  }

  /** A key that does not occur selects nothing. */
  lemma {:induction false} SelectAbsent<T(!new), K>(s: seq<T>, key: T -> K, k: K)
    requires k !in Keys(s, key)
    ensures Select(s, key, k) == []
  {
    if |s| > 0 {
      var p := s[..|s| - 1];
      KeysSnoc(p, key, s[|s| - 1]);
      assert s == p + [s[|s| - 1]];
      SelectAbsent(p, key, k);
    }
  }

  /** A key that occurs in `s` selects at least one element. */
  lemma SelectNonEmpty<T(!new), K>(s: seq<T>, key: T -> K, k: K)
    requires k in Keys(s, key)
    ensures |Select(s, key, k)| > 0
  {
    var i :| 0 <= i < |s| && Keys(s, key)[i] == k;
    assert s[i] in Select(s, key, k);
  }

  /** The keys of a concatenation are the concatenated keys. */
  lemma {:induction false} KeysAppend<T, K>(a: seq<T>, b: seq<T>, key: T -> K)
    ensures Keys(a + b, key) == Keys(a, key) + Keys(b, key)
  {
    if |b| > 0 {
      var p, x := b[..|b| - 1], b[|b| - 1];
      assert b == p + [x];
      assert a + b == (a + p) + [x];
      KeysAppend(a, p, key);
      KeysSnoc(a + p, key, x);
      KeysSnoc(p, key, x);
    }
  }

  /** A sequence has at most as many distinct elements as positions, and exactly as many when it has no repetitions. */
  lemma {:induction false} CardOfSeq<T>(s: seq<T>)
    ensures |set x | x in s| <= |s|
    ensures Distinct(s) ==> |set x | x in s| == |s|
  {
    if |s| > 0 {
      var p, last := s[..|s| - 1], s[|s| - 1];
      assert s == p + [last];
      CardOfSeq(p);
      assert (set x | x in s) == (set x | x in p) + {last};
      if Distinct(s) {
        assert Distinct(p);
        DistinctFresh(s, |s| - 1);
      }
    }
  }

  /** Distinct elements all found in `b` are no more than `b`'s length. */
  lemma SubsetLength<T>(a: seq<T>, b: seq<T>)
    requires Distinct(a)
    requires forall x :: x in a ==> x in b
    ensures |a| <= |b|
  {
    CardOfSeq(a);
    CardOfSeq(b);
    SubsetCard(set x | x in a, set x | x in b);
  }

  lemma {:induction false} SubsetCard<T>(a: set<T>, b: set<T>)
    requires a <= b
    ensures |a| <= |b|
  {
    if a != {} {
      var x :| x in a;
      SubsetCard(a - {x}, b - {x});
    }
  }

  /** The elements whose key is one of `ks`, in their original order. */
  function SelectAmong<T, K(==)>(s: seq<T>, key: T -> K, ks: seq<K>): seq<T> {
    if |s| == 0 then []
    else
      var p := SelectAmong(s[..|s| - 1], key, ks);
      if key(s[|s| - 1]) in ks then p + [s[|s| - 1]] else p
  }

  /** The groups of `ks`, one after the other: every element with key `ks[0]`, then `ks[1]`, ... */
  function SelectAll<T(!new), K(==)>(s: seq<T>, key: T -> K, ks: seq<K>): seq<T> {
    if |ks| == 0 then []
    else SelectAll(s, key, ks[..|ks| - 1]) + Select(s, key, ks[|ks| - 1])
  }

  /** The groups of the first `i + 1` keys are those of the first `i` followed by the group of key `i`. */
  lemma SelectAllTake<T(!new), K>(s: seq<T>, key: T -> K, ks: seq<K>, i: int)
    requires 0 <= i < |ks|
    ensures SelectAll(s, key, ks[..i + 1]) == SelectAll(s, key, ks[..i]) + Select(s, key, ks[i])
  {
    assert ks[..i + 1][..i] == ks[..i];
  }

  lemma {:induction false} SelectAmongAll<T, K>(s: seq<T>, key: T -> K, ks: seq<K>)
    requires forall x :: x in s ==> key(x) in ks
    ensures SelectAmong(s, key, ks) == s
  {
    if |s| > 0 {
      var p := s[..|s| - 1];
      SelectAmongAll(p, key, ks);
      assert s == p + [s[|s| - 1]];
    }
  }

  lemma {:induction false} SelectAmongSnoc<T(!new), K>(s: seq<T>, key: T -> K, ks: seq<K>, k: K)
    requires k !in ks
    ensures multiset(SelectAmong(s, key, ks + [k]))
         == multiset(SelectAmong(s, key, ks)) + multiset(Select(s, key, k))
  {
    if |s| > 0 {
      SelectAmongSnoc(s[..|s| - 1], key, ks, k);
    }
  }

  lemma {:induction false} SelectAllIsAmong<T(!new), K>(s: seq<T>, key: T -> K, ks: seq<K>)
    requires Distinct(ks)
    ensures multiset(SelectAll(s, key, ks)) == multiset(SelectAmong(s, key, ks))
  {
    if |ks| == 0 {
      SelectAmongNone(s, key, ks);
    } else {
      var front, k := ks[..|ks| - 1], ks[|ks| - 1];
      assert ks == front + [k];
      SelectAllIsAmong(s, key, front);
      SelectAmongSnoc(s, key, front, k);
    }
  }

  lemma {:induction false} SelectAmongNone<T, K>(s: seq<T>, key: T -> K, ks: seq<K>)
    requires |ks| == 0
    ensures SelectAmong(s, key, ks) == []
  {
    if |s| > 0 {
      SelectAmongNone(s[..|s| - 1], key, ks);
    }
  }

  /**
   * Grouping by distinct keys that cover every element lists each element
   * exactly as often as it occurs: the groups partition the sequence.
   */
  lemma GroupsPartition<T(!new), K>(s: seq<T>, key: T -> K, ks: seq<K>)
    requires Distinct(ks)
    requires forall x :: x in s ==> key(x) in ks
    ensures multiset(SelectAll(s, key, ks)) == multiset(s)
    ensures |SelectAll(s, key, ks)| == |s|
  {
    SelectAllIsAmong(s, key, ks);
    SelectAmongAll(s, key, ks);
    assert |multiset(SelectAll(s, key, ks))| == |multiset(s)|;
  }

  /** Every element lies in the group of exactly one of a list of distinct keys. */
  lemma ExactlyOneGroup<T(!new), K>(s: seq<T>, key: T -> K, ks: seq<K>, x: T)
    requires Distinct(ks)
    requires forall y :: y in s ==> key(y) in ks
    requires x in s
    ensures exists i :: 0 <= i < |ks| && x in Select(s, key, ks[i])
    ensures forall i, j :: 0 <= i < |ks| && 0 <= j < |ks| && x in Select(s, key, ks[i]) && x in Select(s, key, ks[j]) ==> i == j
  {
    assert key(x) in ks;
    var i :| 0 <= i < |ks| && ks[i] == key(x);
    assert x in Select(s, key, ks[i]);
  }

  // ---------------------------------------------------------------------------
  // Python's ordering of `str` values: code point by code point, and a proper
  // prefix sorts first.

  predicate StrLess(a: string, b: string) {
    if |a| == 0 then |b| > 0
    else if |b| == 0 then false
    else if a[0] != b[0] then a[0] < b[0]
    else StrLess(a[1..], b[1..])
  }

  lemma {:induction false} StrLessIrreflexive(a: string)
    ensures !StrLess(a, a)
  {
    if |a| > 0 {
      StrLessIrreflexive(a[1..]);
    }
  }

  lemma {:induction false} StrLessTransitive(a: string, b: string, c: string)
    requires StrLess(a, b) && StrLess(b, c)
    ensures StrLess(a, c)
  {
    if |a| > 0 && |b| > 0 && |c| > 0 && a[0] == b[0] == c[0] {
      StrLessTransitive(a[1..], b[1..], c[1..]);
    }
  }

  lemma {:induction false} StrLessTotal(a: string, b: string)
    requires a != b
    ensures StrLess(a, b) || StrLess(b, a)
  {
    if |a| > 0 && |b| > 0 && a[0] == b[0] {
      assert a == [a[0]] + a[1..] && b == [b[0]] + b[1..];
      StrLessTotal(a[1..], b[1..]);
    }
  }

  lemma StrLessAsymmetric(a: string, b: string)
    requires StrLess(a, b)
    ensures !StrLess(b, a)
  {
    if StrLess(b, a) {
      StrLessTransitive(a, b, a);
      StrLessIrreflexive(a);
    }
  }

  predicate EndsWith(s: string, suffix: string) {
    |suffix| <= |s| && s[|s| - |suffix|..] == suffix
  }
}
