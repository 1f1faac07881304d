/** Facts about sequences and permutations. */
module Sequences {

  function RemoveAt<T>(s: seq<T>, i: nat): seq<T>
    requires i < |s|
  {
    s[..i] + s[i + 1..]
  }

  ghost predicate Distinct<T>(s: seq<T>) {
    forall i, j :: 0 <= i < j < |s| ==> s[i] != s[j]
  }

  lemma RemoveAtMultiset<T>(s: seq<T>, i: nat)
    requires i < |s|
    ensures multiset(RemoveAt(s, i)) == multiset(s) - multiset{s[i]}
  {
    assert s == s[..i] + [s[i]] + s[i + 1..];
  }

  /** The last element of one order stands somewhere in the other; without it both agree again. */
  lemma MatchLast<T>(s: seq<T>, s': seq<T>) returns (i: nat)
    requires multiset(s) == multiset(s') && s != []
    ensures i < |s'| && s'[i] == s[|s| - 1]
    ensures multiset(s[..|s| - 1]) == multiset(RemoveAt(s', i))
  {
    var x := s[|s| - 1];
    assert x in multiset(s');
    i :| 0 <= i < |s'| && s'[i] == x;
    assert s == s[..|s| - 1] + [x];
    RemoveAtMultiset(s', i);
  }

  lemma PermutationMembers<T>(s: seq<T>, s': seq<T>)
    requires multiset(s) == multiset(s')
    ensures forall x :: x in s <==> x in s'
    ensures |s| == |s'|
  {
    assert forall x :: x in s <==> x in multiset(s);
    assert forall x :: x in s' <==> x in multiset(s');
    assert |multiset(s)| == |s| && |multiset(s')| == |s'|;
  }

  lemma PermutationDistinct<T>(s: seq<T>, s': seq<T>)
    requires multiset(s) == multiset(s') && Distinct(s)
    ensures Distinct(s')
    decreases |s|
  {
    PermutationMembers(s, s');
    if s != [] {
      var i := MatchLast(s, s');
      var n := |s| - 1;
      var rest := RemoveAt(s', i);
      PermutationDistinct(s[..n], rest);
      PermutationMembers(s[..n], rest);
      assert s[n] !in s[..n];
      forall a, b | 0 <= a < b < |s'| ensures s'[a] != s'[b] {
        var a' := if a < i then a else a - 1;
        var b' := if b < i then b else b - 1;
        if a == i {
          assert s'[b] == rest[b'];
        } else if b == i {
          assert s'[a] == rest[a'];
        } else {
          assert s'[a] == rest[a'] && s'[b] == rest[b'];
        }
      }
    }
  }
}
