/**
 * Sequence helpers shared by every table of the record-keeping tool: an
 * optional value (what `find`/`findIndex` give back, and what `parseInt`
 * gives back when the text is not a number), the `Array.prototype.filter`
 * and `Array.prototype.findIndex` behaviour the modules rely on, and the
 * "order-preserving subsequence" relation their results are specified by.
 */
module Common {

  datatype Option<T> = None | Some(value: T)

  /** `sub` is `s` with some elements dropped and the rest kept in their order. */
  predicate IsSubsequence<T(==)>(sub: seq<T>, s: seq<T>)
    decreases |s|
  {
    || sub == []
    || (s != [] && ((sub[0] == s[0] && IsSubsequence(sub[1..], s[1..])) || IsSubsequence(sub, s[1..])))
  }

  lemma {:induction false} SubsequenceReflexive<T>(s: seq<T>)
    ensures IsSubsequence(s, s)
  {
    if s != [] {
      SubsequenceReflexive(s[1..]);
    }
  }

  /** Removing the element at `i` (`splice(i, 1)`) leaves a subsequence. */
  lemma {:induction false} SpliceIsSubsequence<T>(s: seq<T>, i: nat)
    requires i < |s|
    ensures IsSubsequence(s[..i] + s[i + 1..], s)
  {
    if i == 0 {
      assert s[..i] + s[i + 1..] == s[1..];
      SubsequenceReflexive(s[1..]);
    } else {
      SpliceIsSubsequence(s[1..], i - 1);
      assert (s[..i] + s[i + 1..])[1..] == s[1..][..i - 1] + s[1..][i..];
    }
  }

  /** What `splice(i, 1)` leaves: every element but the one at `i`, each in its place. */
  lemma SpliceAt<T>(s: seq<T>, i: nat, spliced: seq<T>)
    requires i < |s| && spliced == s[..i] + s[i + 1..]
    ensures |spliced| == |s| - 1
    ensures forall k :: 0 <= k < |spliced| ==> spliced[k] == s[if k < i then k else k + 1]
    ensures multiset(spliced) + multiset{s[i]} == multiset(s)
    ensures IsSubsequence(spliced, s)
  {
    var front, back := s[..i], s[i + 1..];
    assert s == front + [s[i]] + back;
    forall k | 0 <= k < |spliced| ensures spliced[k] == s[if k < i then k else k + 1] {
      if k < i {
        assert spliced[k] == front[k];
      } else {
        assert spliced[k] == back[k - i];
      }
    }
    assert multiset(s) == multiset(front) + multiset{s[i]} + multiset(back);
    SpliceIsSubsequence(s, i);
  }

  /**
   * `s.filter(keep)`: the order-preserving subsequence of `s` that keeps
   * every occurrence of every element satisfying `keep`, and nothing else.
   */
  function Filter<T(==,!new)>(s: seq<T>, keep: T -> bool): (r: seq<T>)
    ensures IsSubsequence(r, s)
    ensures forall x :: x in r <==> x in s && keep(x)
    ensures forall x :: multiset(r)[x] == if keep(x) then multiset(s)[x] else 0
    ensures |r| <= |s|
  {
    if s == [] then []
    else
      var rest := Filter(s[1..], keep);
      assert s == [s[0]] + s[1..];
      if keep(s[0]) then [s[0]] + rest else rest
  }

  /** A filter that every element passes returns its input unchanged. */
  lemma {:induction false} FilterKeepsAll<T(!new)>(s: seq<T>, keep: T -> bool)
    requires forall i :: 0 <= i < |s| ==> keep(s[i])
    ensures Filter(s, keep) == s
  {
    if s != [] {
      FilterKeepsAll(s[1..], keep);
    }
  }

  /** A filter that no element passes returns the empty sequence. */
  lemma {:induction false} FilterDropsAll<T(!new)>(s: seq<T>, keep: T -> bool)
    requires forall i :: 0 <= i < |s| ==> !keep(s[i])
    ensures Filter(s, keep) == []
  {
    if s != [] {
      FilterDropsAll(s[1..], keep);
    }
  }

  /**
   * `s.findIndex(p)`: the first position whose element satisfies `p`, or
   * `None` (JavaScript's -1) when there is none.
   */
  function FirstIndex<T>(s: seq<T>, p: T -> bool): (r: Option<nat>)
    ensures r.Some? ==> r.value < |s| && p(s[r.value])
    ensures r.Some? ==> forall j :: 0 <= j < r.value ==> !p(s[j])
    ensures r.None? <==> forall j :: 0 <= j < |s| ==> !p(s[j])
  {
    if s == [] then None
    else if p(s[0]) then Some(0)
    else match FirstIndex(s[1..], p)
      case None => None
      case Some(i) => Some(i + 1)
  }
}
