/**
 Two implementations of the velocity store: Redis sorted sets with string members and pruning,
 and a plain list per account.

 Times are ticks of 100 ns; Redis works on Unix milliseconds.
 */
module VelocityStore {
  import opened Text
  import opened Money
  import opened Models

  const TICKS_PER_MS := 10_000
  const EPOCH_MS := 62_135_596_800_000
  const MINUTE := 60_000
  const HOUR := 3_600_000
  const RETENTION := 36 * HOUR

  datatype Tx = Tx(
    id: string, account: string, amount: Money, merchant: string, country: string, time: int, failed: bool)

  /** `ToUnixTimeMilliseconds` */
  function Ms(time: int): int {
    time / TICKS_PER_MS - EPOCH_MS
  }

  // ---- The list ----

  function Since(points: seq<Tx>, from: int): seq<Tx> {
    if points == [] then []
    else
      var last := points[|points| - 1];
      Since(points[..|points| - 1], from) + if last.time >= from then [last] else []
  }

  /** `None` where a `Money` operation throws. */
  function Spend(points: seq<Tx>, currency: string): Option<Money> {
    if points == [] then Make(0.0, currency)
    else
      var before := Spend(points[..|points| - 1], currency);
      var last := Make(points[|points| - 1].amount.amount, currency);
      if before.None? || last.None? then None else Add(before.value, last.value)
  }

  function Merchants(points: seq<Tx>): set<string> {
    set i | 0 <= i < |points| :: Fold(points[i].merchant)
  }

  function Countries(points: seq<Tx>): set<string> {
    set i | 0 <= i < |points| :: Fold(points[i].country)
  }

  function Failures(points: seq<Tx>): nat {
    if points == [] then 0
    else Failures(points[..|points| - 1]) + if points[|points| - 1].failed then 1 else 0
  }

  function Ago(now: int, window: int): int {
    now - window * TICKS_PER_MS
  }

  function ListSnapshot(points: seq<Tx>, now: int, currency: string): Option<Velocity> {
    var spend5 := Spend(Since(points, Ago(now, 5 * MINUTE)), currency);
    var spend60 := Spend(Since(points, Ago(now, HOUR)), currency);
    var spend24 := Spend(Since(points, Ago(now, 24 * HOUR)), currency);
    if spend5.None? || spend60.None? || spend24.None? then None
    else Some(Velocity(
      |Since(points, Ago(now, MINUTE))|, |Since(points, Ago(now, 5 * MINUTE))|, |Since(points, Ago(now, HOUR))|,
      spend5.value, spend60.value, spend24.value,
      |Merchants(Since(points, Ago(now, 10 * MINUTE)))|, |Countries(Since(points, Ago(now, 30 * MINUTE)))|,
      Failures(Since(points, Ago(now, 15 * MINUTE)))))
  }

  // ---- What a snapshot of the list says, in ticks ----

  /** The transactions not older than `from`, by their positions. */
  function Recent(h: seq<Tx>, from: int): set<int> {
    set i | 0 <= i < |h| && h[i].time >= from
  }

  function RecentFailures(h: seq<Tx>, from: int): set<int> {
    set i | 0 <= i < |h| && h[i].time >= from && h[i].failed
  }

  /** The merchants seen since `from`, ignoring case. */
  function RecentMerchants(h: seq<Tx>, from: int): set<string> {
    set i | 0 <= i < |h| && h[i].time >= from :: Fold(h[i].merchant)
  }

  function RecentCountries(h: seq<Tx>, from: int): set<string> {
    set i | 0 <= i < |h| && h[i].time >= from :: Fold(h[i].country)
  }

  /** What was paid since `from`. */
  function Paid(h: seq<Tx>, from: int): real {
    if h == [] then 0.0
    else
      var last := h[|h| - 1];
      Paid(h[..|h| - 1], from) + if last.time >= from then last.amount.amount else 0.0
  }

  ghost predicate ProperAmounts(h: seq<Tx>) {
    forall i :: 0 <= i < |h| ==> h[i].amount.Valid()
  }

  /** The nine fields by the windows of one, five, ten, fifteen, thirty and sixty minutes and of one day. */
  ghost predicate Summarises(v: Velocity, h: seq<Tx>, now: int) {
    && v.tx1 == |Recent(h, now - 600_000_000)|
    && v.tx5 == |Recent(h, now - 3_000_000_000)|
    && v.tx60 == |Recent(h, now - 36_000_000_000)|
    && v.merchants10 == |RecentMerchants(h, now - 6_000_000_000)|
    && v.countries30 == |RecentCountries(h, now - 18_000_000_000)|
    && v.failed15 == |RecentFailures(h, now - 9_000_000_000)|
    && (ProperAmounts(h) ==>
          && v.spend5.amount == Paid(h, now - 3_000_000_000)
          && v.spend60.amount == Paid(h, now - 36_000_000_000)
          && v.spend24.amount == Paid(h, now - 864_000_000_000))
  }

  lemma RecentSnoc(h: seq<Tx>, from: int)
    requires h != []
    ensures var n := |h| - 1;
      && Recent(h, from) == Recent(h[..n], from) + (if h[n].time >= from then {n} else {})
      && RecentFailures(h, from) == RecentFailures(h[..n], from) + (if h[n].time >= from && h[n].failed then {n} else {})
      && n !in Recent(h[..n], from) && n !in RecentFailures(h[..n], from)
  {
  }

  lemma NothingRecent(from: int)
    ensures Recent([], from) == {} && RecentFailures([], from) == {}
  {
  }

  lemma {:induction false} SinceMeaning(h: seq<Tx>, from: int)
    ensures |Since(h, from)| == |Recent(h, from)|
    ensures Failures(Since(h, from)) == |RecentFailures(h, from)|
  {
    hide Recent, RecentFailures;
    if h == [] {
      NothingRecent(from);
    } else {
      hide Since, Failures;
      SinceMeaning(h[..|h| - 1], from);
      RecentSnoc(h, from);
      SinceSnoc(h, from);
    }
  }

  lemma SinceSnoc(h: seq<Tx>, from: int)
    requires h != []
    ensures var n := |h| - 1;
      && |Since(h, from)| == |Since(h[..n], from)| + (if h[n].time >= from then 1 else 0)
      && Failures(Since(h, from)) == Failures(Since(h[..n], from)) + if h[n].time >= from && h[n].failed then 1 else 0
  {
    var n := |h| - 1;
    var before := Since(h[..n], from);
    if h[n].time >= from {
      assert (before + [h[n]])[..|before|] == before;
    } else {
      assert before + [] == before;
    }
  }

  lemma {:induction false} SinceMembers(h: seq<Tx>, from: int)
    ensures forall t :: t in Since(h, from) <==> exists i :: i in Recent(h, from) && h[i] == t
  {
    if h != [] {
      var n := |h| - 1;
      SinceMembers(h[..n], from);
      assert forall i :: 0 <= i < n ==> h[..n][i] == h[i];
      forall t ensures t in Since(h, from) <==> exists i :: i in Recent(h, from) && h[i] == t {
        if i :| i in Recent(h, from) && h[i] == t {
          assert i < n ==> i in Recent(h[..n], from) && h[..n][i] == t;
        }
        if t in Since(h[..n], from) {
          var i :| i in Recent(h[..n], from) && h[..n][i] == t;
          assert i in Recent(h, from) && h[i] == t;
        }
        assert h[n].time >= from ==> n in Recent(h, from);
      }
    }
  }

  lemma NamesMeaning(h: seq<Tx>, from: int)
    ensures Merchants(Since(h, from)) == RecentMerchants(h, from)
    ensures Countries(Since(h, from)) == RecentCountries(h, from)
  {
    hide Fold, Since;
    SinceMembers(h, from);
    var points := Since(h, from);
    forall i | 0 <= i < |h| && h[i].time >= from
      ensures Fold(h[i].merchant) in Merchants(points) && Fold(h[i].country) in Countries(points)
    {
      assert i in Recent(h, from);
      assert h[i] in points;
      var j :| 0 <= j < |points| && points[j] == h[i];
      assert Fold(points[j].merchant) in Merchants(points) && Fold(points[j].country) in Countries(points);
    }
    forall j | 0 <= j < |points|
      ensures Fold(points[j].merchant) in RecentMerchants(h, from) && Fold(points[j].country) in RecentCountries(h, from)
    {
      assert points[j] in points;
      var i :| i in Recent(h, from) && h[i] == points[j];
      assert 0 <= i < |h| && h[i].time >= from;
    }
  }

  lemma {:induction false} PaidMeaning(h: seq<Tx>, from: int, currency: string)
    requires ProperAmounts(h) && !IsWhiteSpace(currency)
    ensures var spend := Spend(Since(h, from), currency);
      spend.Some? && spend.value.Valid() && spend.value.amount == Paid(h, from) && spend.value.currency == Normalise(currency)
  {
    hide Normalise, RoundToCents, IsWhiteSpace;
    if h == [] {
      NothingPaid(currency);
    } else {
      var n := |h| - 1;
      PaidMeaning(h[..n], from, currency);
      var before := Since(h[..n], from);
      if h[n].time >= from {
        assert (before + [h[n]])[..|before|] == before;
        OnePayment(Spend(before, currency).value, h[n].amount, currency);
      } else {
        assert before + [] == before;
      }
    }
  }

  lemma NothingPaid(currency: string)
    requires !IsWhiteSpace(currency)
    ensures Make(0.0, currency).Some? && Make(0.0, currency).value.Valid()
    ensures Make(0.0, currency).value == Money(0.0, Normalise(currency))
  {
    CentsExact(0);
    MakeIsValid(0.0, currency);
  }

  /** Adding one payment in the currency of the snapshot adds its amount. */
  lemma OnePayment(sum: Money, amount: Money, currency: string)
    requires sum.Valid() && amount.Valid() && sum.currency == Normalise(currency) && !IsWhiteSpace(currency)
    ensures Make(amount.amount, currency).Some?
    ensures var r := Add(sum, Make(amount.amount, currency).value);
      r.Some? && r.value.Valid() && r.value.amount == sum.amount + amount.amount && r.value.currency == Normalise(currency)
  {
    hide Normalise, IsWhiteSpace;
    MakeIsValid(amount.amount, currency);
    NormaliseIdempotent(currency);
    var made := Make(amount.amount, currency).value;
    AddAddsMinorUnits(sum, made);
    var x, y := RoundAwayFromZero(sum.amount * 100.0), RoundAwayFromZero(made.amount * 100.0);
    assert sum.amount == x as real / 100.0 && made.amount == y as real / 100.0;
    assert sum.amount + made.amount == (x + y) as real / 100.0;
    CentsExact(x + y);
  }

  /** MAIN: the snapshot of a list counts, names and sums what lies in its windows. */
  lemma SnapshotMeaning(h: seq<Tx>, now: int, currency: string)
    ensures ListSnapshot(h, now, currency).Some? ==> Summarises(ListSnapshot(h, now, currency).value, h, now)
    ensures ProperAmounts(h) && !IsWhiteSpace(currency) ==> ListSnapshot(h, now, currency).Some?
  {
    hide Since, Recent, RecentFailures, RecentMerchants, RecentCountries, Spend, Paid, Merchants, Countries, Failures,
         IsWhiteSpace;
    SinceMeaning(h, now - 600_000_000);
    SinceMeaning(h, now - 3_000_000_000);
    SinceMeaning(h, now - 36_000_000_000);
    SinceMeaning(h, now - 9_000_000_000);
    NamesMeaning(h, now - 6_000_000_000);
    NamesMeaning(h, now - 18_000_000_000);
    if ProperAmounts(h) && !IsWhiteSpace(currency) {
      PaidMeaning(h, now - 3_000_000_000, currency);
      PaidMeaning(h, now - 36_000_000_000, currency);
      PaidMeaning(h, now - 864_000_000_000, currency);
    } else if IsWhiteSpace(currency) {
      SpendBlank(Since(h, now - 3_000_000_000), currency);
    }
  }

  lemma {:induction false} SpendBlank(points: seq<Tx>, currency: string)
    requires IsWhiteSpace(currency)
    ensures Spend(points, currency).None?
  {
    if points != [] {
      SpendBlank(points[..|points| - 1], currency);
    }
  }

  function Points(lists: map<string, seq<Tx>>, account: string): seq<Tx> {
    if account in lists then lists[account] else []
  }

  class InMemoryVelocityStore {
    var points: map<string, seq<Tx>>

    constructor ()
      ensures points == map[]
    {
      points := map[];
    }

    method RecordAndSnapshot(t: Tx) returns (reply: Option<Velocity>)
      modifies this
      ensures points == old(points)[t.account := Points(old(points), t.account) + [t]]
      ensures reply == ListSnapshot(points[t.account], t.time, t.amount.currency)
      ensures reply.Some? ==> Summarises(reply.value, points[t.account], t.time)
      ensures ProperAmounts(points[t.account]) ==> reply.Some?
    {
      hide ListSnapshot, Summarises, IsWhiteSpace;
      if t.account !in points {
        points := points[t.account := []];
      }
      points := points[t.account := points[t.account] + [t]];
      SnapshotMeaning(points[t.account], t.time, t.amount.currency);
      reply := ListSnapshot(points[t.account], t.time, t.amount.currency);
      assert ProperAmounts(points[t.account]) ==> points[t.account][|points[t.account]| - 1] == t && t.amount.Valid();
    }
  }

  // ---- The sorted sets ----

  /** A sorted set: members with their scores. */
  type ZSet = map<string, int>

  datatype Sets = Sets(tx: ZSet, spend: ZSet, merchants: ZSet, countries: ZSet, fails: ZSet)

  const NO_SETS := Sets(map[], map[], map[], map[], map[])

  /** `SortedSetRemoveRangeByScore(-inf, cutoff)` */
  function Pruned(z: ZSet, cutoff: int): ZSet {
    map m | m in z && z[m] > cutoff :: z[m]
  }

  /** `SortedSetRangeByScore(from, to)`, as a set: no reader depends on the order. */
  function Window(z: ZSet, from: int, to: int): set<string> {
    set m | m in z && from <= z[m] <= to
  }

  function SpendMember(id: string, minor: int): string {
    id + [':'] + PrintInt(minor)
  }

  function TimedMember(now: int, name: string): string {
    PrintInt(now) + [':'] + name
  }

  function Added(s: Sets, t: Tx, minor: int): Sets {
    var now := Ms(t.time);
    Sets(
      s.tx[t.id := now],
      s.spend[SpendMember(t.id, minor) := now],
      s.merchants[TimedMember(now, t.merchant) := now],
      s.countries[TimedMember(now, t.country) := now],
      if t.failed then s.fails[t.id := now] else s.fails)
  }

  function PrunedAll(s: Sets, cutoff: int): Sets {
    Sets(Pruned(s.tx, cutoff), Pruned(s.spend, cutoff), Pruned(s.merchants, cutoff), Pruned(s.countries, cutoff), s.fails)
  }

  /** What one spend member adds to the sum: the number after its last colon, if it parses. */
  function Parsed(member: string): int {
    var at := LastIndexOf(member, ':');
    if at >= 0 && ParseLong(member[at + 1..]).Some? then ParseLong(member[at + 1..]).value else 0
  }

  ghost function SumParsed(members: set<string>): int {
    if members == {} then 0
    else
      var m :| m in members;
      Parsed(m) + SumParsed(members - {m})
  }

  /** The names after the first colon, ignoring case. */
  function Names(members: set<string>): set<string> {
    set m | m in members && IndexOf(m, ':') >= 0 :: Fold(m[IndexOf(m, ':') + 1..])
  }

  /** The running total is an unchecked `long`. */
  ghost function SpendIn(z: ZSet, now: int, window: int, currency: string): Option<Money> {
    FromMinorUnits(Wrap64(SumParsed(Window(z, now - window, now))), currency)
  }

  ghost function SetsSnapshot(s: Sets, now: int, currency: string): Option<Velocity> {
    var spend5 := SpendIn(s.spend, now, 5 * MINUTE, currency);
    var spend60 := SpendIn(s.spend, now, HOUR, currency);
    var spend24 := SpendIn(s.spend, now, 24 * HOUR, currency);
    if spend5.None? || spend60.None? || spend24.None? then None
    else Some(Velocity(
      |Window(s.tx, now - MINUTE, now)|, |Window(s.tx, now - 5 * MINUTE, now)|, |Window(s.tx, now - HOUR, now)|,
      spend5.value, spend60.value, spend24.value,
      |Names(Window(s.merchants, now - 10 * MINUTE, now))|, |Names(Window(s.countries, now - 30 * MINUTE, now))|,
      |Window(s.fails, now - 15 * MINUTE, now)|))
  }

  /** The members of a sorted set whose scores lie in the last `window` milliseconds. */
  function Lately(z: ZSet, now: int, window: int): set<string> {
    set m | m in z && now - window <= z[m] <= now
  }

  /** The counts and names of the snapshot by their windows in milliseconds. */
  ghost predicate SetsSummarise(v: Velocity, s: Sets, now: int) {
    && v.tx1 == |Lately(s.tx, now, 60_000)|
    && v.tx5 == |Lately(s.tx, now, 300_000)|
    && v.tx60 == |Lately(s.tx, now, 3_600_000)|
    && v.merchants10 == |Names(Lately(s.merchants, now, 600_000))|
    && v.countries30 == |Names(Lately(s.countries, now, 1_800_000))|
    && v.failed15 == |Lately(s.fails, now, 900_000)|
    && FromMinorUnits(Wrap64(SumParsed(Lately(s.spend, now, 300_000))), v.spend5.currency) == Some(v.spend5)
    && FromMinorUnits(Wrap64(SumParsed(Lately(s.spend, now, 3_600_000))), v.spend60.currency) == Some(v.spend60)
    && FromMinorUnits(Wrap64(SumParsed(Lately(s.spend, now, 86_400_000))), v.spend24.currency) == Some(v.spend24)
  }

  lemma SetsSnapshotMeaning(s: Sets, now: int, currency: string)
    ensures SetsSnapshot(s, now, currency).Some? ==> SetsSummarise(SetsSnapshot(s, now, currency).value, s, now)
  {
    hide SumParsed, Names, Wrap64, Make, Normalise;
    assert forall z: ZSet, w: int :: Window(z, now - w, now) == Lately(z, now, w);
    NormaliseIdempotent(currency);
    SameCurrency(Wrap64(SumParsed(Lately(s.spend, now, 300_000))), currency);
    SameCurrency(Wrap64(SumParsed(Lately(s.spend, now, 3_600_000))), currency);
    SameCurrency(Wrap64(SumParsed(Lately(s.spend, now, 86_400_000))), currency);
  }

  /** Money made once more in its own currency is the same. */
  lemma SameCurrency(minor: int, currency: string)
    ensures var m := FromMinorUnits(minor, currency);
            m.Some? ==> FromMinorUnits(minor, m.value.currency) == m
  {
    NormaliseIdempotent(currency);
  }

  function SetsOf(keys: map<string, Sets>, account: string): Sets {
    if account in keys then keys[account] else NO_SETS
  }

  /** One batch: add, then prune what is 36 hours old or older. */
  function Recorded(s: Sets, t: Tx): Sets {
    match ToMinorUnits(t.amount)
    case None => s
    case Some(minor) => PrunedAll(Added(s, t, minor), Ms(t.time) - RETENTION)
  }

  /** The sorted set with one member added, and without what is 36 hours old or older. */
  ghost predicate AddedAndCut(before: ZSet, after: ZSet, member: string, now: int) {
    && (forall m :: m in after <==> (m == member || (m in before && before[m] > now - 129_600_000)))
    && (forall m :: m in after ==> after[m] == if m == member then now else before[m])
  }

  /** What recording does to the five sets: four are cut, and the failures are never cut here. */
  ghost predicate Retains(before: Sets, after: Sets, t: Tx) {
    var now := Ms(t.time);
    && ToMinorUnits(t.amount).Some?
    && AddedAndCut(before.tx, after.tx, t.id, now)
    && AddedAndCut(before.spend, after.spend, t.id + ":" + PrintInt(ToMinorUnits(t.amount).value), now)
    && AddedAndCut(before.merchants, after.merchants, PrintInt(now) + ":" + t.merchant, now)
    && AddedAndCut(before.countries, after.countries, PrintInt(now) + ":" + t.country, now)
    && after.fails == if t.failed then before.fails[t.id := now] else before.fails
  }

  lemma RecordedRetains(s: Sets, t: Tx)
    requires ToMinorUnits(t.amount).Some?
    ensures Retains(s, Recorded(s, t), t)
  {
    hide PrintInt, ToMinorUnits, Ms, Pruned, AddedAndCut;
    var now, minor := Ms(t.time), ToMinorUnits(t.amount).value;
    AddedThenPruned(s.tx, t.id, now);
    AddedThenPruned(s.spend, SpendMember(t.id, minor), now);
    AddedThenPruned(s.merchants, TimedMember(now, t.merchant), now);
    AddedThenPruned(s.countries, TimedMember(now, t.country), now);
  }

  lemma AddedThenPruned(z: ZSet, member: string, now: int)
    ensures AddedAndCut(z, Pruned(z[member := now], now - RETENTION), member, now)
  {
  }

  /** Milliseconds since 1970, rounded down: the ticks of that moment are 621355968000000000. */
  lemma MsMeaning(k: int, rest: int)
    requires 0 <= rest < 10_000
    ensures Ms(621_355_968_000_000_000 + 10_000 * k + rest) == k
  {
  }

  class RedisVelocityStore {
    var keys: map<string, Sets>

    constructor ()
      ensures keys == map[]
    {
      keys := map[];
    }

    /** An amount outside `long` throws before anything is written. */
    method RecordAndSnapshot(t: Tx) returns (reply: Option<Velocity>)
      modifies this
      ensures ToMinorUnits(t.amount).None? ==> keys == old(keys) && reply == None
      ensures ToMinorUnits(t.amount).Some? ==>
                && keys == old(keys)[t.account := Recorded(SetsOf(old(keys), t.account), t)]
                && reply == SetsSnapshot(keys[t.account], Ms(t.time), t.amount.currency)
                && Retains(SetsOf(old(keys), t.account), keys[t.account], t)
                && (reply.Some? ==> SetsSummarise(reply.value, keys[t.account], Ms(t.time)))
    {
      hide SpendIn, Window, Names, PrunedAll, Added, ToMinorUnits, SetsSummarise, Retains;
      var minor := ToMinorUnits(t.amount);
      if minor.None? {
        return None;
      }
      var now := Ms(t.time);
      var s := PrunedAll(Added(SetsOf(keys, t.account), t, minor.value), now - RETENTION);
      keys := keys[t.account := s];
      var currency := t.amount.currency;
      SetsSnapshotMeaning(s, now, currency);
      RecordedRetains(SetsOf(old(keys), t.account), t);
      var spend5 := SpendAsync(s.spend, now, 5 * MINUTE, currency);
      var spend60 := SpendAsync(s.spend, now, HOUR, currency);
      var spend24 := SpendAsync(s.spend, now, 24 * HOUR, currency);
      var merchants := DistinctSuffixAsync(s.merchants, now, 10 * MINUTE);
      var countries := DistinctSuffixAsync(s.countries, now, 30 * MINUTE);
      if spend5.None? || spend60.None? || spend24.None? {
        return None;
      }
      reply := Some(Velocity(
        |Window(s.tx, now - MINUTE, now)|, |Window(s.tx, now - 5 * MINUTE, now)|, |Window(s.tx, now - HOUR, now)|,
        spend5.value, spend60.value, spend24.value, merchants, countries, |Window(s.fails, now - 15 * MINUTE, now)|));
    }
  }

  method SpendAsync(z: ZSet, now: int, window: int, currency: string) returns (spend: Option<Money>)
    ensures spend == SpendIn(z, now, window, currency)
  {
    hide Wrap64, Parsed, Make, SumParsed, Window;
    var minor := 0;
    SumOfNone();
    var left := Window(z, now - window, now);
    ghost var all, taken := left, {};
    while left != {}
      invariant taken !! left && taken + left == all
      invariant minor == Wrap64(SumParsed(taken))
      decreases left
    {
      var m :| m in left;
      SumStep(taken, m);
      MoveOne(taken, left, m);
      minor := Wrap64(minor + Parsed(m));
      taken, left := taken + {m}, left - {m};
    }
    assert taken == all;
    spend := FromMinorUnits(minor, currency);
  }

  method DistinctSuffixAsync(z: ZSet, now: int, window: int) returns (count: nat)
    ensures count == |Names(Window(z, now - window, now))|
  {
    hide *;
    var unique := {};
    var left := Window(z, now - window, now);
    ghost var all, taken := left, {};
    NoNames();
    while left != {}
      invariant taken + left == all && (left == {} ==> taken == all)
      invariant unique == Names(taken)
      decreases left
    {
      var m :| m in left;
      var at := IndexOf(m, ':');
      if at >= 0 {
        unique := unique + {Fold(m[at + 1..])};
      }
      NamesStep(taken, m);
      MoveOne(taken, left, m);
      taken, left := taken + {m}, left - {m};
    }
    count := |unique|;
  }

  lemma MoveOne(taken: set<string>, left: set<string>, m: string)
    requires m in left
    ensures (taken + {m}) + (left - {m}) == taken + left
  {
  }

  lemma NoNames()
    ensures Names({}) == {}
  {
  }

  /** One more member adds at most one name. */
  lemma NamesStep(taken: set<string>, m: string)
    ensures Names(taken + {m}) == Names(taken) + if IndexOf(m, ':') >= 0 then {Fold(m[IndexOf(m, ':') + 1..])} else {}
  {
    hide Fold, IndexOf;
    var before, after := Names(taken), Names(taken + {m});
    var added := if IndexOf(m, ':') >= 0 then {Fold(m[IndexOf(m, ':') + 1..])} else {};
    forall x | x in after ensures x in before + added {
      var k :| k in taken + {m} && IndexOf(k, ':') >= 0 && x == Fold(k[IndexOf(k, ':') + 1..]);
      assert k == m || k in taken;
    }
    forall x | x in before ensures x in after {
      var k :| k in taken && IndexOf(k, ':') >= 0 && x == Fold(k[IndexOf(k, ':') + 1..]);
      assert k in taken + {m};
    }
    assert m in taken + {m};
  }

  lemma SumOfNone()
    ensures Wrap64(SumParsed({})) == 0
  {
  }

  lemma WrapAdds(a: int, b: int)
    ensures Wrap64(Wrap64(a) + b) == Wrap64(a + b)
  {
  }

  lemma SumStep(taken: set<string>, m: string)
    requires m !in taken
    ensures Wrap64(Wrap64(SumParsed(taken)) + Parsed(m)) == Wrap64(SumParsed(taken + {m}))
  {
    hide Wrap64, Parsed, SumParsed;
    SumParsedInsert(taken, m);
    WrapAdds(SumParsed(taken), Parsed(m));
  }

  lemma {:induction false} SumParsedRemove(members: set<string>, m: string)
    requires m in members
    ensures SumParsed(members) == Parsed(m) + SumParsed(members - {m})
    decreases members
  {
    var k :| k in members && SumParsed(members) == Parsed(k) + SumParsed(members - {k});
    if k != m {
      SumParsedRemove(members - {k}, m);
      SumParsedRemove(members - {m}, k);
      assert members - {k} - {m} == members - {m} - {k};
    }
  }

  lemma SumParsedInsert(members: set<string>, m: string)
    requires m !in members
    ensures SumParsed(members + {m}) == SumParsed(members) + Parsed(m)
  {
    SumParsedRemove(members + {m}, m);
    assert members + {m} - {m} == members;
  }

  // ---- Members decode to what was encoded ----

  lemma PrintedIntHasNoColon(n: int)
    ensures ':' !in PrintInt(n)
  {
    if n < 0 {
      assert forall i :: 0 < i < |PrintInt(n)| ==> PrintInt(n)[i] == PrintNat(-n)[i - 1];
    }
  }

  /** MAIN: whatever colons the id contains, the number read back is the amount that was written. */
  lemma SpendMemberDecodes(id: string, minor: nat)
    requires minor <= INT64_MAX
    ensures Parsed(SpendMember(id, minor)) == minor
  {
    PrintedIntHasNoColon(minor);
    LastSeparator(id, ':', PrintInt(minor));
    assert SpendMember(id, minor)[|id| + 1..] == PrintInt(minor);
    ParseLongPrintNat(minor);
  }

  /** MAIN: distinct (id, amount) pairs give distinct members. */
  lemma SpendMemberInjective(id: string, minor: nat, id': string, minor': nat)
    requires minor <= INT64_MAX && minor' <= INT64_MAX
    requires SpendMember(id, minor) == SpendMember(id', minor')
    ensures id == id' && minor == minor'
  {
    SpendMemberDecodes(id, minor);
    SpendMemberDecodes(id', minor');
    PrintedIntHasNoColon(minor);
    LastSeparator(id, ':', PrintInt(minor));
    LastSeparator(id', ':', PrintInt(minor'));
    assert id == SpendMember(id, minor)[..|id|];
    assert id' == SpendMember(id', minor')[..|id|];
  }

  lemma TimedMemberDecodes(now: int, name: string)
    ensures Names({TimedMember(now, name)}) == {Fold(name)}
  {
    PrintedIntHasNoColon(now);
    FirstSeparator(PrintInt(now), ':', name);
    assert TimedMember(now, name)[|PrintInt(now)| + 1..] == name;
    var m := TimedMember(now, name);
    assert m in {m};
  }
}
