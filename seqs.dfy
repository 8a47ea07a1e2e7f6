/** `Array.prototype.filter` and the order facts the pages depend on. */
module Seqs {
  import opened Wrappers

  /** r is obtained from s by deleting elements, keeping the order of the rest. */
  predicate IsSubsequence<T(==)>(r: seq<T>, s: seq<T>)
    decreases |s|
  {
    if r == [] then true
    else if s == [] then false
    else if r[0] == s[0] then IsSubsequence(r[1..], s[1..])
    else IsSubsequence(r, s[1..])
  }

  /**
   * Keeps every copy of each passing value and no copy of a failing one, in
   * the input's order.
   */
  function Filter<T(==,!new)>(s: seq<T>, p: T -> bool): (r: seq<T>)
    ensures forall i :: 0 <= i < |r| ==> r[i] in s && p(r[i])
    ensures forall i :: 0 <= i < |s| && p(s[i]) ==> s[i] in r
    ensures forall x :: multiset(r)[x] == (if p(x) then multiset(s)[x] else 0)
    ensures IsSubsequence(r, s)
    ensures |r| <= |s|
  {
    if s == [] then []
    else
      assert s == [s[0]] + s[1..];
      if p(s[0]) then [s[0]] + Filter(s[1..], p)
      else Filter(s[1..], p)
  }

  /** Keeping every element returns the input unchanged. */
  lemma {:induction false} FilterKeepsAll<T(!new)>(s: seq<T>, p: T -> bool)
    requires forall i :: 0 <= i < |s| ==> p(s[i])
    ensures Filter(s, p) == s
  {
    if s != [] {
      FilterKeepsAll(s[1..], p);
    }
  }

  /** `Array.prototype.find`: the first element satisfying p, if there is one. */
  function Find<T(==)>(s: seq<T>, p: T -> bool): (r: Option<T>)
    ensures r.None? <==> forall i :: 0 <= i < |s| ==> !p(s[i])
    ensures r.Some? ==> exists i :: 0 <= i < |s| && s[i] == r.value && p(s[i]) && FirstFrom(s, p, i)
  {
    if s == [] then None
    else if p(s[0]) then (assert FirstFrom(s, p, 0); Some(s[0]))
    else
      var r := Find(s[1..], p);
      if r.Some? then
        var i :| 0 <= i < |s[1..]| && s[1..][i] == r.value && p(s[1..][i]) && FirstFrom(s[1..], p, i);
        assert FirstFrom(s, p, i + 1);
        r
      else r
  }

  /** No element before index i satisfies p. */
  predicate FirstFrom<T>(s: seq<T>, p: T -> bool, i: int)
    requires 0 <= i <= |s|
  {
    forall j :: 0 <= j < i ==> !p(s[j])
  }
}
