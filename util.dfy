/** Small generic helpers: an optional value and order-preserving filtering. */
module Util {
  datatype Option<T> = None | Some(value: T)

  /** The elements of s that satisfy keep, in their original order. This is
      what a loop that removes the members failing a test from a group leaves. */
  function Filter<T>(s: seq<T>, keep: T -> bool): (r: seq<T>)
    ensures |r| <= |s|
    decreases |s|
  {
    if s == [] then []
    else Filter(s[..|s| - 1], keep) + (if keep(s[|s| - 1]) then [s[|s| - 1]] else [])
  }

  /** Filtering one more element at the end, the step a loop over s takes. */
  lemma FilterSnoc<T>(s: seq<T>, x: T, keep: T -> bool)
    ensures Filter(s + [x], keep) == Filter(s, keep) + (if keep(x) then [x] else [])
  {
    assert (s + [x])[..|s + [x]| - 1] == s;
  }

  /** Exactly the elements that pass the test survive. */
  lemma {:induction false} FilterMembers<T>(s: seq<T>, keep: T -> bool)
    ensures forall x :: x in Filter(s, keep) <==> x in s && keep(x)
    decreases |s|
  {
    if s != [] {
      var init := s[..|s| - 1];
      FilterMembers(init, keep);
      assert s == init + [s[|s| - 1]];
    }
  }

  /** Every element went either to the kept part or to the removed part, once. */
  lemma {:induction false} FilterPartition<T>(s: seq<T>, keep: T -> bool)
    ensures multiset(Filter(s, keep)) + multiset(Filter(s, x => !keep(x))) == multiset(s)
    decreases |s|
  {
    if s != [] {
      var init, last := s[..|s| - 1], s[|s| - 1];
      var drop := x => !keep(x);
      FilterPartition(init, keep);
      assert s == init + [last];
      var kept, dropped := Filter(init, keep), Filter(init, drop);
      assert Filter(s, keep) == kept + (if keep(last) then [last] else []);
      assert Filter(s, drop) == dropped + (if drop(last) then [last] else []);
      if keep(last) {
        assert multiset(Filter(s, keep)) == multiset(kept) + multiset{last};
        assert multiset(Filter(s, drop)) == multiset(dropped);
      } else {
        assert multiset(Filter(s, keep)) == multiset(kept);
        assert multiset(Filter(s, drop)) == multiset(dropped) + multiset{last};
      }
      assert multiset(s) == multiset(init) + multiset{last};
    }
  }
}
