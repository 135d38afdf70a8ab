/**
 * `filter` and `removeAll(where:)` on Swift arrays: keep, in order, the
 * elements a predicate accepts.
 */
module Seqs {
  import opened Base

  /** `s.filter(keep)`; `s.removeAll(where: drop)` is `Filter(s, x => !drop(x))`. */
  function Filter<T>(s: seq<T>, keep: T -> bool): (r: seq<T>)
    ensures |r| <= |s|
    ensures forall i :: 0 <= i < |r| ==> r[i] in s && keep(r[i])
    ensures forall i :: 0 <= i < |s| && keep(s[i]) ==> s[i] in r
    ensures (forall i :: 0 <= i < |s| ==> keep(s[i])) ==> r == s
  {
    if |s| == 0 then []
    else
      assert s == s[..|s| - 1] + [s[|s| - 1]];
      Filter(s[..|s| - 1], keep) + (if keep(s[|s| - 1]) then [s[|s| - 1]] else [])
  }

  /** Filtering a concatenation filters each part: the kept elements keep their order. */
  lemma {:induction false} FilterAppend<T>(a: seq<T>, b: seq<T>, keep: T -> bool)
    ensures Filter(a + b, keep) == Filter(a, keep) + Filter(b, keep)
    decreases |b|
  {
    if |b| == 0 {
      assert a + b == a;
    } else {
      var init := b[..|b| - 1];
      assert (a + b)[..|a + b| - 1] == a + init;
      FilterAppend(a, init, keep);
    }
  }

  /** Each accepted value is kept as many times as it occurs, and each rejected one is dropped. */
  lemma {:induction false} FilterCounts<T>(s: seq<T>, keep: T -> bool, x: T)
    ensures multiset(Filter(s, keep))[x] == if keep(x) then multiset(s)[x] else 0
  {
    if |s| > 0 {
      var init, last := s[..|s| - 1], s[|s| - 1];
      assert s == init + [last];
      FilterCounts(init, keep, x);
    }
  }

  /** Filtering out the one rejected element between two accepted stretches closes the gap. */
  lemma FilterDropsOne<T>(pre: seq<T>, x: T, post: seq<T>, keep: T -> bool)
    requires forall i :: 0 <= i < |pre| ==> keep(pre[i])
    requires forall i :: 0 <= i < |post| ==> keep(post[i])
    requires !keep(x)
    ensures Filter(pre + [x] + post, keep) == pre + post
  {
    var front := pre + [x];
    assert Filter(front, keep) == pre by {
      FilterAppend(pre, [x], keep);
      FilterRejects(x, keep);
    }
    assert Filter(post, keep) == post;
    FilterAppend(front, post, keep);
  }

  /** A rejected element alone filters to nothing. */
  lemma FilterRejects<T>(x: T, keep: T -> bool)
    requires !keep(x)
    ensures Filter([x], keep) == []
  {
    assert [x][..0] == [];
  }

  /** The first index at or after `from` whose element satisfies `p`. */
  function FirstIndexFrom<T>(s: seq<T>, p: T -> bool, from: nat): (r: Option<nat>)
    requires from <= |s|
    ensures r.Some? ==> from <= r.value < |s| && p(s[r.value])
    ensures r.Some? ==> forall i :: from <= i < r.value ==> !p(s[i])
    ensures r.None? ==> forall i :: from <= i < |s| ==> !p(s[i])
    decreases |s| - from
  {
    if from == |s| then None
    else if p(s[from]) then Some(from)
    else FirstIndexFrom(s, p, from + 1)
  }

  /** `firstIndex(where: p)`. */
  function FirstIndex<T>(s: seq<T>, p: T -> bool): (r: Option<nat>)
    ensures r.Some? ==> r.value < |s| && p(s[r.value])
    ensures r.Some? ==> forall i :: 0 <= i < r.value ==> !p(s[i])
    ensures r.None? ==> forall i :: 0 <= i < |s| ==> !p(s[i])
  {
    FirstIndexFrom(s, p, 0)
  }
}
