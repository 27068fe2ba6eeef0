/** The array map and filter the game applies to its entity lists, as
    functions on sequences. Both are defined from the last element, which is
    the order in which a loop that appends builds them. */
module Seqs {

  function Map<A, B>(s: seq<A>, f: A -> B): (r: seq<B>)
    ensures |r| == |s|
    ensures forall i :: 0 <= i < |s| ==> r[i] == f(s[i])
  {
    if s == [] then [] else Map(s[..|s| - 1], f) + [f(s[|s| - 1])]
  }

  function Filter<A>(s: seq<A>, keep: A -> bool): (r: seq<A>)
    ensures |r| <= |s|
    ensures forall x :: x in r ==> x in s && keep(x)
  {
    if s == [] then []
    else Filter(s[..|s| - 1], keep) + (if keep(s[|s| - 1]) then [s[|s| - 1]] else [])
  }

  /** Mapping then filtering is filtering by the pulled-back test, then mapping. */
  lemma {:induction false} FilterOfMap<A, B>(s: seq<A>, f: A -> B, keep: B -> bool, keepBefore: A -> bool)
    requires forall x :: keep(f(x)) == keepBefore(x)
    ensures Filter(Map(s, f), keep) == Map(Filter(s, keepBefore), f)
  {
    if s != [] {
      var init := s[..|s| - 1];
      assert Map(s, f)[..|s| - 1] == Map(init, f);
      FilterOfMap(init, f, keep, keepBefore);
      if keepBefore(s[|s| - 1]) {
        var fs := Filter(s, keepBefore);
        assert fs == Filter(init, keepBefore) + [s[|s| - 1]];
        assert fs[..|fs| - 1] == Filter(init, keepBefore);
      }
    }
  }
}
