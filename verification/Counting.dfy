/** Counting the elements of a sequence that satisfy a predicate. */
module Counting {

  function Count<T>(s: seq<T>, p: T -> bool): nat {
    if s == [] then 0 else Count(s[..|s| - 1], p) + if p(s[|s| - 1]) then 1 else 0
  }

  function KeySet<T, K(==)>(s: seq<T>, p: T -> bool, key: T -> K): set<K> {
    if s == [] then {}
    else KeySet(s[..|s| - 1], p, key) + if p(s[|s| - 1]) then {key(s[|s| - 1])} else {}
  }

  lemma {:induction false} KeySetMember<T, K>(s: seq<T>, p: T -> bool, key: T -> K, x: K)
    ensures x in KeySet(s, p, key) <==> exists k :: 0 <= k < |s| && p(s[k]) && key(s[k]) == x
  {
    if s != [] {
      var n := |s| - 1;
      var init := s[..n];
      KeySetMember(init, p, key, x);
      if x in KeySet(init, p, key) {
        var k :| 0 <= k < |init| && p(init[k]) && key(init[k]) == x;
        assert s[k] == init[k];
      }
      if k :| 0 <= k < |s| && p(s[k]) && key(s[k]) == x {
        assert k < n ==> init[k] == s[k];
      }
    }
  }

  /** Counted elements with pairwise different keys are as many as their keys. */
  lemma {:induction false} CountIsKeyCount<T, K>(s: seq<T>, p: T -> bool, key: T -> K)
    requires forall j, k :: 0 <= j < k < |s| && p(s[j]) && p(s[k]) ==> key(s[j]) != key(s[k])
    ensures Count(s, p) == |KeySet(s, p, key)|
  {
    if s != [] {
      var n := |s| - 1;
      var init := s[..n];
      assert forall j :: 0 <= j < n ==> init[j] == s[j];
      CountIsKeyCount(init, p, key);
      KeySetMember(init, p, key, key(s[n]));
    }
  }

  /** Where the counted elements are. */
  function Positions<T>(s: seq<T>, p: T -> bool): set<nat> {
    set k: nat | k < |s| && p(s[k])
  }

  lemma {:induction false} CountIsSize<T>(s: seq<T>, p: T -> bool)
    ensures Count(s, p) == |Positions(s, p)|
  {
    if s != [] {
      var n := |s| - 1;
      CountIsSize(s[..n], p);
      assert forall k :: 0 <= k < n ==> s[..n][k] == s[k];
      assert Positions(s, p) == Positions(s[..n], p) + if p(s[n]) then {n} else {};
    } else {
      assert Positions(s, p) == {};
    }
  }
}
