/** Array operations the components rely on, stated over sequences. */
module Seqs {

  /** `s.filter(keep)`: the elements `keep` accepts, in their original order.
      Every accepted element keeps all its occurrences, every rejected one loses
      them all, and nothing else appears. */
  function Filter<T>(s: seq<T>, keep: T -> bool): (r: seq<T>)
    ensures |r| <= |s|
    ensures forall i :: 0 <= i < |r| ==> r[i] in s && keep(r[i])
    ensures forall i :: 0 <= i < |s| && keep(s[i]) ==> s[i] in r
    ensures multiset(r) <= multiset(s)
    ensures forall i :: 0 <= i < |s| ==> multiset(r)[s[i]] == if keep(s[i]) then multiset(s)[s[i]] else 0
  {
    if s == [] then []
    else
      var rest := Filter(s[1..], keep);
      FilterStep(s, keep, rest);
      (if keep(s[0]) then [s[0]] else []) + rest
  }

  /** One step of `Filter`'s count: putting the first element of `s` in front
      of the filtered rest, when `keep` accepts it, keeps the counts exact. */
  lemma FilterStep<T>(s: seq<T>, keep: T -> bool, rest: seq<T>)
    requires s != []
    requires multiset(rest) <= multiset(s[1..])
    requires forall i :: 0 <= i < |s[1..]| ==>
      multiset(rest)[s[1..][i]] == if keep(s[1..][i]) then multiset(s[1..])[s[1..][i]] else 0
    ensures var r := (if keep(s[0]) then [s[0]] else []) + rest;
      && multiset(r) <= multiset(s)
      && forall i :: 0 <= i < |s| ==> multiset(r)[s[i]] == if keep(s[i]) then multiset(s)[s[i]] else 0
  {
    var x, tail := s[0], s[1..];
    var r := (if keep(x) then [x] else []) + rest;
    assert s == [x] + tail;
    assert multiset(s) == multiset{x} + multiset(tail);
    assert multiset(r) == (if keep(x) then multiset{x} else multiset{}) + multiset(rest);
    forall i | 0 <= i < |s|
      ensures multiset(r)[s[i]] == if keep(s[i]) then multiset(s)[s[i]] else 0
    {
      var y := s[i];
      if y != x {
        assert tail[i - 1] == y;
      } else if !(x in tail) {
        assert multiset(tail)[x] == 0;
      } else {
        var j :| 0 <= j < |tail| && tail[j] == x;
      }
    }
  }

  /** `a` is `b` with some elements left out and the rest in their order. */
  predicate IsSubsequence<T(==)>(a: seq<T>, b: seq<T>)
    decreases |b|
  {
    a == [] || (b != [] && ((a[0] == b[0] && IsSubsequence(a[1..], b[1..])) || IsSubsequence(a, b[1..])))
  }

  /** A filter only leaves elements out: it never reorders or repeats them. */
  lemma {:induction false} FilterIsSubsequence<T>(s: seq<T>, keep: T -> bool)
    ensures IsSubsequence(Filter(s, keep), s)
  {
    if s != [] {
      FilterIsSubsequence(s[1..], keep);
      var r := Filter(s, keep);
      if keep(s[0]) {
        assert r[0] == s[0] && r[1..] == Filter(s[1..], keep);
      } else {
        assert r == Filter(s[1..], keep);
      }
    }
  }

  /** A filter that accepts every element returns the sequence unchanged. */
  lemma {:induction false} FilterKeepsAll<T>(s: seq<T>, keep: T -> bool)
    requires forall i :: 0 <= i < |s| ==> keep(s[i])
    ensures Filter(s, keep) == s
  {
    if s != [] {
      FilterKeepsAll(s[1..], keep);
    }
  }

  /** Two filters that agree on every element of `s` select the same elements. */
  lemma {:induction false} FilterCongruent<T>(s: seq<T>, p: T -> bool, q: T -> bool)
    requires forall i :: 0 <= i < |s| ==> p(s[i]) == q(s[i])
    ensures Filter(s, p) == Filter(s, q)
  {
    if s != [] {
      FilterCongruent(s[1..], p, q);
    }
  }

  /** `s.filter((_, i) => i !== index)`: keeps every position but `index`. */
  function WithoutIndex<T>(s: seq<T>, index: int): (r: seq<T>)
    ensures |r| == if 0 <= index < |s| then |s| - 1 else |s|
    ensures forall i :: 0 <= i < |r| ==> r[i] in s
  {
    if s == [] then []
    else WithoutIndex(s[..|s| - 1], index) + (if |s| - 1 == index then [] else [s[|s| - 1]])
  }

  /** The positional filter deletes exactly the element at `index` when that is
      a position of `s`, keeping the rest in order, and otherwise deletes nothing. */
  lemma {:induction false} WithoutIndexRemovesOne<T>(s: seq<T>, index: int)
    ensures WithoutIndex(s, index) == if 0 <= index < |s| then s[..index] + s[index + 1..] else s
  {
    if s != [] {
      var n := |s| - 1;
      var init := s[..n];
      WithoutIndexRemovesOne(init, index);
      if index == n {
        assert s[..index] == init && s[index + 1..] == [];
      } else if 0 <= index < n {
        assert init[..index] == s[..index];
        assert init[index + 1..] + [s[n]] == s[index + 1..];
      } else {
        assert init + [s[n]] == s;
      }
    }
  }
}
