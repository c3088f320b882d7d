/** Order-preserving selection over sequences: the shape of every JavaScript
    `Array.prototype.filter` and every SQL `WHERE` in the model. */
module Seqs {

  /** `a` is obtained from `b` by deleting elements, keeping the order of the rest. */
  predicate IsSubsequence<T(==)>(a: seq<T>, b: seq<T>)
    decreases |b|
  {
    if a == [] then true
    else if b == [] then false
    else (a[0] == b[0] && IsSubsequence(a[1..], b[1..])) || IsSubsequence(a, b[1..])
  }

  lemma {:induction false} SubsequenceReflexive<T>(a: seq<T>)
    ensures IsSubsequence(a, a)
    decreases |a|
  {
    if a != [] {
      SubsequenceReflexive(a[1..]);
    }
  }

  lemma {:induction false} SubsequenceTransitive<T>(a: seq<T>, b: seq<T>, c: seq<T>)
    requires IsSubsequence(a, b) && IsSubsequence(b, c)
    ensures IsSubsequence(a, c)
    decreases |c|
  {
    if a == [] {
    } else if b[0] == c[0] && IsSubsequence(b[1..], c[1..]) {
      if a[0] == b[0] && IsSubsequence(a[1..], b[1..]) {
        SubsequenceTransitive(a[1..], b[1..], c[1..]);
      } else {
        SubsequenceTransitive(a, b[1..], c[1..]);
      }
    } else {
      SubsequenceTransitive(a, b, c[1..]);
    }
  }

  lemma {:induction false} SubsequenceMembers<T>(a: seq<T>, b: seq<T>, k: nat)
    requires IsSubsequence(a, b) && k < |a|
    ensures a[k] in b
    decreases |b|
  {
    if a[0] == b[0] && IsSubsequence(a[1..], b[1..]) {
      if k > 0 {
        SubsequenceMembers(a[1..], b[1..], k - 1);
      }
    } else {
      SubsequenceMembers(a, b[1..], k);
    }
  }

  /** The elements of `s` satisfying `keep`, in their original order. */
  function Keep<T(==, !new)>(s: seq<T>, keep: T -> bool): (r: seq<T>)
    ensures IsSubsequence(r, s)
    ensures forall i :: 0 <= i < |r| ==> keep(r[i])
    ensures forall i :: 0 <= i < |s| && keep(s[i]) ==> s[i] in r
    ensures forall x {:trigger multiset(r)[x]} :: multiset(r)[x] == if keep(x) then multiset(s)[x] else 0
  {
    if s == [] then []
    else
      assert s == [s[0]] + s[1..];
      if keep(s[0]) then [s[0]] + Keep(s[1..], keep)
      else Keep(s[1..], keep)
  }

  /** One step of `Keep`: the head is kept exactly when it passes. */
  lemma KeepCons<T(!new)>(x: T, s: seq<T>, keep: T -> bool)
    ensures Keep([x] + s, keep) == if keep(x) then [x] + Keep(s, keep) else Keep(s, keep)
  {
    assert ([x] + s)[0] == x && ([x] + s)[1..] == s;
  }

  /** Appending an item that fails `keep` to items that all pass, then
      filtering, gives back those items. */
  lemma {:induction false} KeepDropsAppended<T(!new)>(s: seq<T>, x: T, keep: T -> bool)
    requires forall i :: 0 <= i < |s| ==> keep(s[i])
    requires !keep(x)
    ensures Keep(s + [x], keep) == s
    decreases |s|
  {
    if s == [] {
      KeepCons(x, [], keep);
      assert [x] + [] == s + [x];
    } else {
      var t := s[1..];
      assert forall i :: 0 <= i < |t| ==> keep(t[i]) by {
        forall i | 0 <= i < |t| ensures keep(t[i]) {
          assert t[i] == s[i + 1];
        }
      }
      KeepDropsAppended(t, x, keep);
      KeepCons(s[0], t + [x], keep);
      assert [s[0]] + (t + [x]) == s + [x];
      assert [s[0]] + t == s;
    }
  }

  /** When `r` holds each item satisfying `keep` as often as `s` does, and
      nothing else, every item of `r` satisfies `keep` and every such item of
      `s` is in `r`. */
  lemma CountsGiveMembers<T>(r: seq<T>, s: seq<T>, keep: T -> bool)
    requires forall x {:trigger multiset(r)[x]} :: multiset(r)[x] == if keep(x) then multiset(s)[x] else 0
    ensures forall k :: 0 <= k < |r| ==> keep(r[k])
    ensures forall i :: 0 <= i < |s| && keep(s[i]) ==> s[i] in r
  {
    forall k | 0 <= k < |r| ensures keep(r[k]) {
      assert multiset(r)[r[k]] > 0;
    }
    forall i | 0 <= i < |s| && keep(s[i]) ensures s[i] in r {
      assert multiset(s)[s[i]] > 0 && multiset(r)[s[i]] == multiset(s)[s[i]];
    }
  }

  /** No two elements of `s` share a `key`: a UNIQUE column. */
  predicate DistinctBy<T, K(==)>(s: seq<T>, key: T -> K) {
    forall i, j :: 0 <= i < j < |s| ==> key(s[i]) != key(s[j])
  }

  /** Deleting rows never breaks a UNIQUE constraint. */
  lemma {:induction false} SubsequenceDistinct<T, K>(a: seq<T>, b: seq<T>, key: T -> K)
    requires IsSubsequence(a, b) && DistinctBy(b, key)
    ensures DistinctBy(a, key)
    decreases |b|
  {
    if a == [] {
    } else if a[0] == b[0] && IsSubsequence(a[1..], b[1..]) {
      assert DistinctBy(b[1..], key) by {
        forall i, j | 0 <= i < j < |b| - 1 ensures key(b[1..][i]) != key(b[1..][j]) {
          assert b[1..][i] == b[i + 1] && b[1..][j] == b[j + 1];
        }
      }
      SubsequenceDistinct(a[1..], b[1..], key);
      forall i, j | 0 <= i < j < |a| ensures key(a[i]) != key(a[j]) {
        if i == 0 {
          SubsequenceMembers(a[1..], b[1..], j - 1);
          var m :| 0 <= m < |b| - 1 && b[1..][m] == a[j];
          assert b[m + 1] == a[j];
        } else {
          assert a[1..][i - 1] == a[i] && a[1..][j - 1] == a[j];
        }
      }
    } else {
      assert DistinctBy(b[1..], key) by {
        forall i, j | 0 <= i < j < |b| - 1 ensures key(b[1..][i]) != key(b[1..][j]) {
          assert b[1..][i] == b[i + 1] && b[1..][j] == b[j + 1];
        }
      }
      SubsequenceDistinct(a, b[1..], key);
    }
  }

  /** Appending a row whose key is new keeps a UNIQUE constraint. */
  lemma DistinctAppend<T, K>(s: seq<T>, x: T, key: T -> K)
    requires DistinctBy(s, key)
    requires forall i :: 0 <= i < |s| ==> key(s[i]) != key(x)
    ensures DistinctBy(s + [x], key)
  {
    var t := s + [x];
    forall i, j | 0 <= i < j < |t| ensures key(t[i]) != key(t[j]) {
      assert t[i] == s[i];
      if j < |s| {
        assert t[j] == s[j];
      }
    }
  }

  function Min(a: int, b: int): int {
    if a <= b then a else b
  }
}
