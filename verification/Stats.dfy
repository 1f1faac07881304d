/** Sorting, ranks and sums of integer samples. */
module Stats {
  import opened Sequences

  function Insert(s: seq<int>, x: int): seq<int> {
    if s == [] || x <= s[0] then [x] + s else [s[0]] + Insert(s[1..], x)
  }

  function Sort(s: seq<int>): seq<int> {
    if s == [] then [] else Insert(Sort(s[..|s| - 1]), s[|s| - 1])
  }

  ghost predicate Ascending(s: seq<int>) {
    forall i, j :: 0 <= i <= j < |s| ==> s[i] <= s[j]
  }

  /** How many elements are below `v`, or at most `v`. */
  function Count(s: seq<int>, v: int, inclusive: bool): nat {
    if s == [] then 0
    else Count(s[..|s| - 1], v, inclusive) + One(s[|s| - 1], v, inclusive)
  }

  function One(x: int, v: int, inclusive: bool): nat {
    if x < v || (inclusive && x == v) then 1 else 0
  }

  /** The positions of the elements below `v`, or at most `v`. */
  function Below(s: seq<int>, v: int): set<int> {
    set i | 0 <= i < |s| && s[i] < v
  }

  function UpTo(s: seq<int>, v: int): set<int> {
    set i | 0 <= i < |s| && s[i] <= v
  }

  /** Counting is counting positions. */
  lemma {:induction false} CountMeaning(s: seq<int>, v: int)
    ensures Count(s, v, false) == |Below(s, v)|
    ensures Count(s, v, true) == |UpTo(s, v)|
  {
    hide Below, UpTo;
    PositionsSnoc(s, v);
    if s != [] {
      CountMeaning(s[..|s| - 1], v);
    }
  }

  lemma PositionsSnoc(s: seq<int>, v: int)
    ensures s == [] ==> Below(s, v) == {} && UpTo(s, v) == {}
    ensures s != [] ==>
      var n := |s| - 1;
      && n !in Below(s[..n], v) && n !in UpTo(s[..n], v)
      && Below(s, v) == Below(s[..n], v) + (if s[n] < v then {n} else {})
      && UpTo(s, v) == UpTo(s[..n], v) + (if s[n] <= v then {n} else {})
  {
  }

  function Sum(s: seq<int>): int {
    if s == [] then 0 else Sum(s[..|s| - 1]) + s[|s| - 1]
  }

  /** `v` is the `k`-th smallest element, counting from one. */
  predicate IsRank(s: seq<int>, v: int, k: nat) {
    v in s && Count(s, v, false) < k <= Count(s, v, true)
  }

  lemma {:induction false} CountFront(s: seq<int>, v: int, inclusive: bool)
    requires s != []
    ensures Count(s, v, inclusive) == One(s[0], v, inclusive) + Count(s[1..], v, inclusive)
  {
    if |s| > 1 {
      CountFront(s[..|s| - 1], v, inclusive);
      assert s[..|s| - 1][1..] == s[1..][..|s| - 2];
    }
  }

  lemma {:induction false} InsertPermutes(s: seq<int>, x: int)
    ensures multiset(Insert(s, x)) == multiset(s) + multiset{x}
  {
    if s != [] && x > s[0] {
      InsertPermutes(s[1..], x);
      assert s == [s[0]] + s[1..];
    }
  }

  lemma {:induction false} InsertKeepsFloor(s: seq<int>, x: int, low: int)
    requires low <= x && forall i :: 0 <= i < |s| ==> low <= s[i]
    ensures forall i :: 0 <= i < |Insert(s, x)| ==> low <= Insert(s, x)[i]
  {
    if s != [] && x > s[0] {
      InsertKeepsFloor(s[1..], x, low);
    }
  }

  lemma ConsAscends(low: int, s: seq<int>)
    requires Ascending(s) && forall i :: 0 <= i < |s| ==> low <= s[i]
    ensures Ascending([low] + s)
  {
  }

  lemma {:induction false} InsertAscends(s: seq<int>, x: int)
    requires Ascending(s)
    ensures Ascending(Insert(s, x))
  {
    if s != [] && x > s[0] {
      InsertAscends(s[1..], x);
      InsertKeepsFloor(s[1..], x, s[0]);
      ConsAscends(s[0], Insert(s[1..], x));
    }
  }

  lemma {:induction false} InsertCounts(s: seq<int>, x: int, v: int, inclusive: bool)
    ensures Count(Insert(s, x), v, inclusive) == Count(s, v, inclusive) + One(x, v, inclusive)
  {
    var r := Insert(s, x);
    CountFront(r, v, inclusive);
    if s == [] || x <= s[0] {
      assert r[1..] == s;
    } else {
      InsertCounts(s[1..], x, v, inclusive);
      CountFront(s, v, inclusive);
      assert r[1..] == Insert(s[1..], x);
    }
  }

  lemma {:induction false} SortKeeps(s: seq<int>, v: int, inclusive: bool)
    ensures Ascending(Sort(s)) && multiset(Sort(s)) == multiset(s) && |Sort(s)| == |s|
    ensures Count(Sort(s), v, inclusive) == Count(s, v, inclusive)
  {
    if s != [] {
      var n := |s| - 1;
      SortKeeps(s[..n], v, inclusive);
      InsertPermutes(Sort(s[..n]), s[n]);
      InsertAscends(Sort(s[..n]), s[n]);
      InsertCounts(Sort(s[..n]), s[n], v, inclusive);
      assert s == s[..n] + [s[n]];
    }
    PermutationMembers(Sort(s), s);
  }

  lemma {:induction false} CountPrefix(s: seq<int>, i: nat, v: int, inclusive: bool)
    requires i <= |s|
    ensures Count(s[..i], v, inclusive) <= Count(s, v, inclusive) <= Count(s[..i], v, inclusive) + |s| - i
  {
    if i < |s| {
      var n := |s| - 1;
      CountPrefix(s[..n], i, v, inclusive);
      assert s[..n][..i] == s[..i];
    } else {
      assert s[..i] == s;
    }
  }

  lemma {:induction false} CountAll(s: seq<int>, v: int)
    requires forall i :: 0 <= i < |s| ==> s[i] <= v
    ensures Count(s, v, true) == |s|
  {
    if s != [] {
      CountAll(s[..|s| - 1], v);
    }
  }

  lemma {:induction false} CountNone(s: seq<int>, i: nat, v: int)
    requires i <= |s| && forall j :: i <= j < |s| ==> s[j] >= v
    ensures Count(s, v, false) <= i
  {
    if i < |s| {
      CountNone(s[..|s| - 1], i, v);
    } else {
      CountPrefix(s, 0, v, false);
      assert s[..0] == [];
    }
  }

  /** Position `k - 1` of the sorted samples holds the `k`-th smallest. */
  lemma SortRanks(s: seq<int>, k: nat)
    requires 1 <= k <= |s|
    ensures |Sort(s)| == |s| && IsRank(s, Sort(s)[k - 1], k)
  {
    SortKeeps(s, 0, false);
    var sorted := Sort(s);
    var v := sorted[k - 1];
    SortKeeps(s, v, false);
    SortKeeps(s, v, true);
    CountNone(sorted, k - 1, v);
    CountAll(sorted[..k], v);
    CountPrefix(sorted, k, v, true);
    PermutationMembers(sorted, s);
  }

  lemma {:induction false} CountSplit(s: seq<int>, v: int, w: int)
    requires v < w
    ensures Count(s, v, true) <= Count(s, w, false)
  {
    if s != [] {
      CountSplit(s[..|s| - 1], v, w);
    }
  }

  /** There is only one `k`-th smallest element, and ranks are ordered like their values. */
  lemma RankOrder(s: seq<int>, v: int, k: nat, w: int, l: nat)
    requires IsRank(s, v, k) && IsRank(s, w, l) && k <= l
    ensures v <= w && (k == l ==> v == w)
  {
    if w < v {
      CountSplit(s, w, v);
    }
    if k == l && v < w {
      CountSplit(s, v, w);
    }
  }

  lemma {:induction false} CountRemoves(s: seq<int>, i: nat, v: int, inclusive: bool)
    requires i < |s|
    ensures Count(s, v, inclusive) == Count(RemoveAt(s, i), v, inclusive) + One(s[i], v, inclusive)
  {
    var n := |s| - 1;
    var rest := RemoveAt(s, i);
    if i == n {
      assert rest == s[..n];
    } else {
      CountRemoves(s[..n], i, v, inclusive);
      assert rest[..|rest| - 1] == RemoveAt(s[..n], i) && rest[|rest| - 1] == s[n];
    }
  }

  lemma {:induction false} CountPermutes(s: seq<int>, s': seq<int>, v: int, inclusive: bool)
    requires multiset(s) == multiset(s')
    ensures Count(s, v, inclusive) == Count(s', v, inclusive)
  {
    PermutationMembers(s, s');
    if s != [] {
      var i := MatchLast(s, s');
      CountPermutes(s[..|s| - 1], RemoveAt(s', i), v, inclusive);
      CountRemoves(s', i, v, inclusive);
    }
  }

  /** Ranks depend on the samples, not on the order they arrived in. */
  lemma RankPermutes(s: seq<int>, s': seq<int>, v: int, k: nat)
    requires multiset(s) == multiset(s')
    ensures IsRank(s, v, k) <==> IsRank(s', v, k)
  {
    CountPermutes(s, s', v, false);
    CountPermutes(s, s', v, true);
    PermutationMembers(s, s');
  }

  lemma {:induction false} SumPermutes(s: seq<int>, s': seq<int>)
    requires multiset(s) == multiset(s')
    ensures Sum(s) == Sum(s')
  {
    PermutationMembers(s, s');
    if s != [] {
      var i := MatchLast(s, s');
      SumPermutes(s[..|s| - 1], RemoveAt(s', i));
      SumRemoves(s', i);
    }
  }

  lemma {:induction false} SumRemoves(s: seq<int>, i: nat)
    requires i < |s|
    ensures Sum(s) == Sum(RemoveAt(s, i)) + s[i]
  {
    var n := |s| - 1;
    var rest := RemoveAt(s, i);
    if i == n {
      assert rest == s[..n];
    } else {
      SumRemoves(s[..n], i);
      assert rest[..|rest| - 1] == RemoveAt(s[..n], i) && rest[|rest| - 1] == s[n];
    }
  }

  lemma {:induction false} SumBounds(s: seq<int>, low: int, high: int)
    requires forall i :: 0 <= i < |s| ==> low <= s[i] <= high
    ensures low * |s| <= Sum(s) <= high * |s|
  {
    if s != [] {
      var n := |s| - 1;
      SumBounds(s[..n], low, high);
      assert low * |s| == low * n + low && high * |s| == high * n + high;
    }
  }

  /** The mean lies between any bounds of the samples. */
  lemma MeanBounds(s: seq<int>, low: int, high: int)
    requires s != [] && forall i :: 0 <= i < |s| ==> low <= s[i] <= high
    ensures low as real <= Sum(s) as real / |s| as real <= high as real
  {
    SumBounds(s, low, high);
    QuotientBounds(low, high, Sum(s), |s|);
  }

  lemma QuotientBounds(low: int, high: int, total: int, n: nat)
    requires n > 0 && low * n <= total <= high * n
    ensures low as real <= total as real / n as real <= high as real
  {
    var q, d := total as real / n as real, n as real;
    assert q * d == total as real;
    ProductAsReal(low, n);
    ProductAsReal(high, n);
    DivideBound(low as real, q, d);
    DivideBound(q, high as real, d);
  }

  lemma ProductAsReal(a: int, b: int)
    ensures (a * b) as real == a as real * b as real
  {
  }

  lemma DivideBound(a: real, b: real, n: real)
    requires n > 0.0 && a * n <= b * n
    ensures a <= b
  {
    if a > b {
      PositiveProduct(a - b, n);
    }
  }

  lemma PositiveProduct(a: real, b: real)
    requires a > 0.0 && b > 0.0
    ensures a * b > 0.0
  {
  }

  /** The last `n` elements. */
  function LastOf<T>(n: nat, s: seq<T>): seq<T> {
    if |s| <= n then s else s[|s| - n..]
  }

  /** Appending to a full window drops the oldest element. */
  lemma LastOfSnoc<T>(n: nat, s: seq<T>, x: T)
    requires n > 0
    ensures LastOf(n, s + [x]) == if |LastOf(n, s)| < n then LastOf(n, s) + [x] else LastOf(n, s)[1..] + [x]
  {
  }

  lemma LastOfLength<T>(n: nat, s: seq<T>)
    ensures |LastOf(n, s)| == if |s| <= n then |s| else n
  {
  }

  lemma LastOfWhole<T>(n: nat, s: seq<T>)
    requires |s| <= n
    ensures LastOf(n, s) == s
  {
  }
}
