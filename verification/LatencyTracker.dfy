/** The ring buffer behind the latency percentiles. */
module LatencyTracker {
  import opened Stats

  datatype LatencySnapshot = LatencySnapshot(average: real, p50: int, p95: int, p99: int)

  /** The nearest rank of a percentile: its share of the samples, rounded up. */
  function RankOf(percent: nat, n: nat): nat {
    (percent * n + 99) / 100
  }

  function Percentile(sorted: seq<int>, percent: nat): int
    requires sorted != []
  {
    var index := RankOf(percent, |sorted|) - 1;
    sorted[if index < 0 then 0 else if index > |sorted| - 1 then |sorted| - 1 else index]
  }

  lemma RankInRange(percent: nat, n: nat)
    requires n > 0 && 1 <= percent <= 100
    ensures 1 <= RankOf(percent, n) <= n
  {
    ProductInRange(percent, n);
    ShareInRange(percent * n, n);
  }

  lemma ProductInRange(percent: nat, n: nat)
    requires 1 <= percent <= 100
    ensures n <= percent * n <= 100 * n
  {
    ProductMonotone(1, percent, n);
    ProductMonotone(percent, 100, n);
  }

  lemma {:induction false} ProductMonotone(a: nat, b: nat, n: nat)
    requires a <= b
    ensures a * n <= b * n
    decreases b - a
  {
    if a < b {
      ProductMonotone(a, b - 1, n);
      assert b * n == (b - 1) * n + n;
    }
  }

  lemma ShareInRange(x: nat, n: nat)
    requires 0 < n <= x <= 100 * n
    ensures 1 <= (x + 99) / 100 <= n
  {
  }

  lemma PercentileIsRank(samples: seq<int>, percent: nat)
    requires samples != [] && 1 <= percent <= 100
    ensures |Sort(samples)| == |samples|
    ensures IsRank(samples, Percentile(Sort(samples), percent), RankOf(percent, |samples|))
  {
    hide RankOf, Sort, IsRank;
    RankInRange(percent, |samples|);
    SortRanks(samples, RankOf(percent, |samples|));
  }

  /** Reading a full ring from `index` on. */
  function Rotated(buffer: seq<int>, index: nat): seq<int>
    requires index <= |buffer|
  {
    buffer[index..] + buffer[..index]
  }

  /** The buffer holds the last samples of the history, oldest at `index` once it is full. */
  ghost predicate Ring(buffer: seq<int>, count: nat, index: nat, history: seq<int>) {
    && count == (if |history| < |buffer| then |history| else |buffer|)
    && (|history| < |buffer| ==> index == count && buffer[..count] == history)
    && (|history| >= |buffer| > 0 ==> index < |buffer| && Rotated(buffer, index) == LastOf(|buffer|, history))
    && (|buffer| == 0 ==> history == [] && index == 0)
  }

  /** The index after one step around the ring. */
  lemma NextIndex(index: nat, n: nat)
    requires index < n
    ensures (index + 1) % n == if index + 1 == n then 0 else index + 1
  {
  }

  /** Overwriting the oldest sample and stepping on drops it and appends the new one. */
  lemma RotateStep(buffer: seq<int>, index: nat, x: int)
    requires index < |buffer|
    ensures Rotated(buffer[index := x], if index + 1 == |buffer| then 0 else index + 1)
            == Rotated(buffer, index)[1..] + [x]
  {
    var n, buffer' := |buffer|, buffer[index := x];
    var next := if index + 1 == n then 0 else index + 1;
    var before, after := Rotated(buffer, index), Rotated(buffer', next);
    forall k | 0 <= k < n ensures after[k] == (before[1..] + [x])[k] {
      var at := if k < n - next then next + k else k - (n - next);
      assert after[k] == buffer'[at];
      if k < n - 1 {
        var at' := if k + 1 < n - index then index + (k + 1) else k + 1 - (n - index);
        assert before[k + 1] == buffer[at'] && at == at';
      }
    }
  }

  /** Filling the last free place makes the ring full, starting at 0. */
  lemma FillStep(buffer: seq<int>, history: seq<int>, x: int)
    requires |history| < |buffer| && buffer[..|history|] == history
    ensures buffer[|history| := x][..|history| + 1] == history + [x]
    ensures |history| + 1 == |buffer| ==> Rotated(buffer[|history| := x], 0) == history + [x]
  {
    var buffer' := buffer[|history| := x];
    assert buffer'[..|history| + 1] == buffer[..|history|] + [x];
    if |history| + 1 == |buffer| {
      assert buffer' == buffer'[..|history| + 1];
      assert Rotated(buffer', 0) == buffer' + [] == buffer';
    }
  }

  lemma RingStep(buffer: seq<int>, count: nat, index: nat, history: seq<int>, x: int)
    requires Ring(buffer, count, index, history) && |buffer| > 0
    ensures index < |buffer|
    ensures Ring(buffer[index := x], if count < |buffer| then count + 1 else count, (index + 1) % |buffer|, history + [x])
  {
    hide LastOf, Rotated;
    var n := |buffer|;
    NextIndex(index, n);
    if |history| >= n {
      RotateStep(buffer, index, x);
      LastOfLength(n, history);
      LastOfSnoc(n, history, x);
    } else {
      FillStep(buffer, history, x);
      if |history| + 1 == n {
        LastOfWhole(n, history + [x]);
      }
    }
  }

  /** The nearest-rank percentile: fewer than `percent` hundredths of the samples lie below it, and at least as many lie at
      or below it. */
  predicate NearestRank(window: seq<int>, v: int, percent: nat) {
    && v in window
    && 100 * |Below(window, v)| < percent * |window| <= 100 * |UpTo(window, v)|
  }

  lemma RankMeaning(window: seq<int>, v: int, percent: nat)
    ensures IsRank(window, v, RankOf(percent, |window|)) <==> NearestRank(window, v, percent)
  {
    CountMeaning(window, v);
    CeilingMeaning(percent * |window|, |Below(window, v)|, |UpTo(window, v)|);
  }

  /** A number of samples reaches a share exactly if it reaches the share rounded up. */
  lemma CeilingMeaning(share: nat, below: nat, upTo: nat)
    ensures below < (share + 99) / 100 <==> 100 * below < share
    ensures (share + 99) / 100 <= upTo <==> share <= 100 * upTo
  {
  }

  class LatencyTracker {
    const samples: array<int>
    var count: nat
    var index: nat
    ghost var history: seq<int>

    ghost predicate Valid()
      reads this, samples
    {
      Ring(samples[..], count, index, history)
    }

    constructor (capacity: nat)
      ensures Valid() && history == [] && samples.Length == capacity && fresh(samples)
    {
      samples := new int[capacity];
      count, index, history := 0, 0, [];
    }

    /** A tracker without capacity throws. */
    method Record(milliseconds: int) returns (ok: bool)
      requires Valid()
      modifies this, samples
      ensures Valid()
      ensures ok <==> samples.Length > 0
      ensures history == if ok then old(history) + [milliseconds] else old(history)
    {
      if samples.Length == 0 {
        return false;
      }
      RingStep(samples[..], count, index, history, milliseconds);
      ghost var before := samples[..];
      samples[index] := milliseconds;
      assert samples[..] == before[index := milliseconds];
      index := (index + 1) % samples.Length;
      if count < samples.Length {
        count := count + 1;
      }
      history := history + [milliseconds];
      ok := true;
    }

    method Snapshot() returns (r: LatencySnapshot)
      requires Valid()
      ensures history == [] ==> r == LatencySnapshot(0.0, 0, 0, 0)
      ensures history != [] ==>
                var n := if |history| < samples.Length then |history| else samples.Length;
                var window := history[|history| - n..];
                && n > 0
                && NearestRank(window, r.p50, 50)
                && NearestRank(window, r.p95, 95)
                && NearestRank(window, r.p99, 99)
                && r.average == Sum(window) as real / n as real
    {
      if count == 0 {
        return LatencySnapshot(0.0, 0, 0, 0);
      }
      var copy := samples[..count];
      ghost var window := LastOf(samples.Length, history);
      assert multiset(copy) == multiset(window) && |copy| == |window| by {
        if |history| >= samples.Length {
          assert copy == samples[..] == samples[..][..index] + samples[..][index..];
          assert window == samples[..][index..] + samples[..][..index];
        } else {
          assert copy == samples[..][..count];
        }
      }
      var sorted := Sort(copy);
      PercentileIsRank(copy, 50);
      PercentileIsRank(copy, 95);
      PercentileIsRank(copy, 99);
      r := LatencySnapshot(Sum(copy) as real / count as real,
                           Percentile(sorted, 50), Percentile(sorted, 95), Percentile(sorted, 99));
      RankPermutes(copy, window, r.p50, RankOf(50, count));
      RankPermutes(copy, window, r.p95, RankOf(95, count));
      RankPermutes(copy, window, r.p99, RankOf(99, count));
      SumPermutes(copy, window);
      RankMeaning(window, r.p50, 50);
      RankMeaning(window, r.p95, 95);
      RankMeaning(window, r.p99, 99);
    }
  }

  /** MAIN: whatever values hold the three nearest ranks and the mean of a window, they are unique, ordered,
      and the mean lies between the smallest and the largest sample. */
  lemma SnapshotMeaning(window: seq<int>, p50: int, p95: int, p99: int, low: int, high: int)
    requires window != [] && forall i :: 0 <= i < |window| ==> low <= window[i] <= high
    requires NearestRank(window, p50, 50)
    requires NearestRank(window, p95, 95)
    requires NearestRank(window, p99, 99)
    ensures low <= p50 <= p95 <= p99 <= high
    ensures low as real <= Sum(window) as real / |window| as real <= high as real
    ensures forall v :: NearestRank(window, v, 50) ==> v == p50
    ensures forall v :: NearestRank(window, v, 95) ==> v == p95
    ensures forall v :: NearestRank(window, v, 99) ==> v == p99
  {
    hide IsRank, RankOf, Sum, NearestRank;
    forall v, percent ensures IsRank(window, v, RankOf(percent, |window|)) <==> NearestRank(window, v, percent) {
      RankMeaning(window, v, percent);
    }
    RankMembers(window, p50, RankOf(50, |window|));
    RankMembers(window, p99, RankOf(99, |window|));
    RanksInOrder(|window|);
    RankOrder(window, p50, RankOf(50, |window|), p95, RankOf(95, |window|));
    RankOrder(window, p95, RankOf(95, |window|), p99, RankOf(99, |window|));
    MeanBounds(window, low, high);
    OnlyOne(window, p50, RankOf(50, |window|));
    OnlyOne(window, p95, RankOf(95, |window|));
    OnlyOne(window, p99, RankOf(99, |window|));
  }

  lemma RankMembers(s: seq<int>, v: int, k: nat)
    requires IsRank(s, v, k)
    ensures v in s
  {
  }

  lemma RanksInOrder(n: nat)
    ensures RankOf(50, n) <= RankOf(95, n) <= RankOf(99, n)
  {
  }

  /** Two elements of the same rank are equal. */
  lemma OnlyOne(s: seq<int>, v: int, k: nat)
    requires IsRank(s, v, k)
    ensures forall w :: IsRank(s, w, k) ==> w == v
  {
    hide IsRank;
    forall w | IsRank(s, w, k) ensures w == v {
      RankOrder(s, w, k, v, k);
    }
  }
}
