/** The rolling behaviour profile: recent amounts, recent names, typical hours and known devices. */
module CustomerProfile {
  import opened Text
  import opened Stats
  import opened Rules

  // ---- Most recent names ----

  const NAMES_KEPT := 8

  /** `RemoveAll` of the names equal to `value` ignoring case. */
  function Without(items: seq<string>, value: string): seq<string> {
    if items == [] then []
    else (if Fold(items[0]) == Fold(value) then [] else [items[0]]) + Without(items[1..], value)
  }

  function Take<T>(n: nat, s: seq<T>): seq<T> {
    if |s| <= n then s else s[..n]
  }

  /** `TouchList`: the value moves to the front and eight names are kept. */
  function Touch(items: seq<string>, value: string): seq<string> {
    Take(NAMES_KEPT, [value] + Without(items, value))
  }

  /** The column after a history of touches. */
  function Touched(h: seq<string>): seq<string> {
    if h == [] then [] else Touch(Touched(h[..|h| - 1]), h[|h| - 1])
  }

  /** The same without ever truncating. */
  function Untruncated(h: seq<string>): seq<string> {
    if h == [] then [] else [h[|h| - 1]] + Without(Untruncated(h[..|h| - 1]), h[|h| - 1])
  }

  ghost predicate NamesDiffer(s: seq<string>) {
    forall i, j :: 0 <= i < j < |s| ==> Fold(s[i]) != Fold(s[j])
  }

  lemma {:induction false} WithoutFilters(items: seq<string>, value: string)
    ensures forall x :: x in Without(items, value) <==> x in items && Fold(x) != Fold(value)
    ensures NamesDiffer(items) ==> NamesDiffer(Without(items, value))
  {
    hide Fold;
    if items != [] {
      WithoutFilters(items[1..], value);
      var rest := Without(items[1..], value);
      assert items == [items[0]] + items[1..];
      if NamesDiffer(items) {
        assert NamesDiffer(items[1..]);
        forall i | 0 <= i < |rest| ensures Fold(rest[i]) != Fold(items[0]) {
          assert rest[i] in items[1..];
          var k :| 0 <= k < |items[1..]| && items[1..][k] == rest[i];
          assert items[k + 1] == rest[i];
        }
      }
    }
  }

  lemma {:induction false} WithoutAbsent(items: seq<string>, value: string)
    requires forall i :: 0 <= i < |items| ==> Fold(items[i]) != Fold(value)
    ensures Without(items, value) == items
  {
    if items != [] {
      WithoutAbsent(items[1..], value);
    }
  }

  lemma TakeCons(k: nat, x: string, s: seq<string>)
    ensures Take(k + 1, [x] + s) == [x] + Take(k, s)
  {
  }

  lemma TakeNone(s: seq<string>)
    ensures Take(0, s) == []
  {
  }

  lemma WithoutCons(x: string, rest: seq<string>, value: string)
    ensures Without([x] + rest, value) == if Fold(x) == Fold(value) then Without(rest, value) else [x] + Without(rest, value)
  {
    hide Fold;
    assert ([x] + rest)[1..] == rest;
  }

  lemma DifferTail(items: seq<string>)
    requires NamesDiffer(items) && items != []
    ensures NamesDiffer(items[1..])
    ensures forall i :: 0 <= i < |items| - 1 ==> Fold(items[1..][i]) != Fold(items[0])
  {
    hide Fold;
  }

  /** Truncating before removing loses nothing that would have been kept. */
  lemma {:induction false} TruncateFirst(items: seq<string>, value: string, k: nat)
    requires NamesDiffer(items)
    ensures Take(k, Without(Take(k + 1, items), value)) == Take(k, Without(items, value))
  {
    if items != [] {
      hide Fold, Take, Without, NamesDiffer;
      var x, rest := items[0], items[1..];
      assert items == [x] + rest;
      DifferTail(items);
      if Fold(x) == Fold(value) {
        TruncateMatch(x, rest, value, k);
      } else if k == 0 {
        TakeNone(Without(items, value));
        TakeNone(Without(Take(k + 1, items), value));
      } else {
        TruncateFirst(rest, value, k - 1);
        TruncateOther(x, rest, value, k);
      }
    }
  }

  lemma TruncateMatch(x: string, rest: seq<string>, value: string, k: nat)
    requires Fold(x) == Fold(value) && forall i :: 0 <= i < |rest| ==> Fold(rest[i]) != Fold(x)
    ensures Take(k, Without(Take(k + 1, [x] + rest), value)) == Take(k, Without([x] + rest, value))
  {
    hide Fold, Take, Without;
    TakeCons(k, x, rest);
    WithoutCons(x, rest, value);
    WithoutCons(x, Take(k, rest), value);
    WithoutAbsent(rest, value);
    TakeIsPrefix(k, rest);
    WithoutAbsent(Take(k, rest), value);
    TakeTwice(k, rest);
  }

  lemma TruncateOther(x: string, rest: seq<string>, value: string, k: nat)
    requires Fold(x) != Fold(value) && k > 0
    requires Take(k - 1, Without(Take(k, rest), value)) == Take(k - 1, Without(rest, value))
    ensures Take(k, Without(Take(k + 1, [x] + rest), value)) == Take(k, Without([x] + rest, value))
  {
    hide Fold, Take, Without;
    TakeCons(k, x, rest);
    WithoutCons(x, rest, value);
    WithoutCons(x, Take(k, rest), value);
    TakeCons(k - 1, x, Without(rest, value));
    TakeCons(k - 1, x, Without(Take(k, rest), value));
  }

  lemma TakeIsPrefix(k: nat, s: seq<string>)
    ensures |Take(k, s)| <= |s| && forall i :: 0 <= i < |Take(k, s)| ==> Take(k, s)[i] == s[i]
  {
  }

  lemma TakeTwice(k: nat, s: seq<string>)
    ensures Take(k, Take(k, s)) == Take(k, s)
  {
  }

  lemma {:induction false} UntruncatedDiffer(h: seq<string>)
    ensures NamesDiffer(Untruncated(h))
  {
    hide Fold;
    if h != [] {
      var n := |h| - 1;
      UntruncatedDiffer(h[..n]);
      WithoutFilters(Untruncated(h[..n]), h[n]);
      var rest := Without(Untruncated(h[..n]), h[n]);
      forall i | 0 <= i < |rest| ensures Fold(rest[i]) != Fold(h[n]) {
        assert rest[i] in rest;
      }
    }
  }

  /** MAIN: truncating at every step equals truncating once at the end. */
  lemma {:induction false} TruncateOnce(h: seq<string>)
    ensures Touched(h) == Take(NAMES_KEPT, Untruncated(h))
  {
    hide Fold;
    if h != [] {
      var n := |h| - 1;
      var all, v := Untruncated(h[..n]), h[n];
      TruncateOnce(h[..n]);
      UntruncatedDiffer(h[..n]);
      TruncateFirst(all, v, NAMES_KEPT - 1);
      assert Take(NAMES_KEPT, [v] + Without(all, v)) == [v] + Take(NAMES_KEPT - 1, Without(all, v));
      assert Take(NAMES_KEPT, [v] + Without(Take(NAMES_KEPT, all), v))
             == [v] + Take(NAMES_KEPT - 1, Without(Take(NAMES_KEPT, all), v));
    }
  }

  /** `pos` lists, newest first, the last position of every name that occurs in `h`. */
  ghost predicate LastPositions(h: seq<string>, pos: seq<nat>) {
    && Descending(pos)
    && (forall a :: 0 <= a < |pos| ==> IsLast(h, pos[a]))
    && (forall i: nat :: IsLast(h, i) ==> i in pos)
  }

  ghost predicate IsLast(h: seq<string>, p: nat) {
    p < |h| && forall i :: p < i < |h| ==> Fold(h[i]) != Fold(h[p])
  }

  ghost predicate Spells(h: seq<string>, pos: seq<nat>, out: seq<string>) {
    |out| == |pos| && forall a :: 0 <= a < |pos| ==> pos[a] < |h| && out[a] == h[pos[a]]
  }

  lemma SpellsCons(h: seq<string>, p: nat, pos: seq<nat>, out: seq<string>)
    requires p < |h|
    ensures Spells(h, [p] + pos, [h[p]] + out) <==> Spells(h, pos, out)
  {
    var all, names := [p] + pos, [h[p]] + out;
    if Spells(h, all, names) {
      forall a | 0 <= a < |pos| ensures pos[a] < |h| && out[a] == h[pos[a]] {
        assert all[a + 1] == pos[a] && names[a + 1] == out[a];
      }
    }
  }

  lemma SpellsHead(h: seq<string>, pos: seq<nat>, out: seq<string>)
    ensures Spells(h, [], [])
    ensures Spells(h, pos, out) ==> |out| == |pos| && forall a :: 0 <= a < |pos| ==> pos[a] < |h| && out[a] == h[pos[a]]
  {
  }

  ghost predicate Descending(pos: seq<nat>) {
    forall a, b :: 0 <= a < b < |pos| ==> pos[a] > pos[b]
  }

  /** A position above all others goes in front. */
  lemma DescendingCons(p: nat, pos: seq<nat>)
    ensures Descending([p] + pos) <==> Descending(pos) && forall q :: q in pos ==> q < p
  {
    var all := [p] + pos;
    forall a | 0 <= a < |pos| ensures all[a + 1] == pos[a] {
    }
    if Descending(all) {
      forall a, b | 0 <= a < b < |pos| ensures pos[a] > pos[b] {
        assert all[a + 1] > all[b + 1];
      }
      forall q | q in pos ensures q < p {
        var a :| 0 <= a < |pos| && pos[a] == q;
        assert all[0] > all[a + 1];
      }
    } else if Descending(pos) {
      var a, b :| 0 <= a < b < |all| && all[a] <= all[b];
      assert a == 0 && all[b] == pos[b - 1] && pos[b - 1] in pos;
    }
  }

  /** Dropping one name from the list is dropping its position. */
  lemma {:induction false} WithoutPositions(h: seq<string>, pos: seq<nat>, out: seq<string>, value: string)
    returns (kept: seq<nat>)
    requires Spells(h, pos, out) && Descending(pos)
    ensures Spells(h, kept, Without(out, value)) && Descending(kept)
    ensures forall p :: p in kept <==> p in pos && p < |h| && Fold(h[p]) != Fold(value)
  {
    hide Fold, Spells, Descending;
    SpellsHead(h, pos, out);
    if pos == [] {
      assert out == [];
      kept := [];
      NothingDescends();
    } else {
      var p := pos[0];
      assert pos == [p] + pos[1..] && out == [h[p]] + out[1..];
      SpellsCons(h, p, pos[1..], out[1..]);
      DescendingCons(p, pos[1..]);
      var rest := WithoutPositions(h, pos[1..], out[1..], value);
      if Fold(h[p]) == Fold(value) {
        assert Without(out, value) == [] + Without(out[1..], value) == Without(out[1..], value);
        kept := rest;
      } else {
        assert Without(out, value) == [h[p]] + Without(out[1..], value);
        kept := [p] + rest;
        SpellsCons(h, p, rest, Without(out[1..], value));
        DescendingCons(p, rest);
      }
    }
  }

  lemma NothingDescends()
    ensures Descending([])
  {
  }

  /** A new name takes the newest position and drops the earlier position of its spelling. */
  lemma PositionsSnoc(h: seq<string>, before: seq<nat>, kept: seq<nat>)
    requires h != [] && LastPositions(h[..|h| - 1], before)
    requires Descending(kept)
    requires forall p :: p in kept <==> p in before && p < |h| - 1 && Fold(h[p]) != Fold(h[|h| - 1])
    ensures LastPositions(h, [|h| - 1] + kept)
  {
    hide Fold;
    var n := |h| - 1;
    var pos: seq<nat> := [n] + kept;
    forall a | 0 <= a < |pos| ensures IsLast(h, pos[a]) && (a > 0 ==> pos[a] < n) {
      if a > 0 {
        assert pos[a] == kept[a - 1] && kept[a - 1] in kept && IsLast(h[..n], pos[a]);
        forall i | pos[a] < i < |h| ensures Fold(h[i]) != Fold(h[pos[a]]) {
          assert i < n ==> h[..n][i] == h[i];
        }
      }
    }
    forall i: nat | IsLast(h, i) ensures i in pos {
      if i < n {
        assert IsLast(h[..n], i);
      } else {
        assert pos[0] == i;
      }
    }
  }

  /** The untruncated list is the last spellings of all names, newest first. */
  lemma {:induction false} UntruncatedIsLastSpellings(h: seq<string>) returns (pos: seq<nat>)
    ensures LastPositions(h, pos) && Spells(h, pos, Untruncated(h))
  {
    hide Fold, Without, IsLast;
    pos := [];
    if h == [] {
      EmptyHistory();
    } else {
      var n := |h| - 1;
      var before := UntruncatedIsLastSpellings(h[..n]);
      var kept := WithoutPositions(h[..n], before, Untruncated(h[..n]), h[n]);
      PositionsSnoc(h, before, kept);
      SpellsCons(h, n, kept, Without(Untruncated(h[..n]), h[n]));
      assert Spells(h, kept, Without(Untruncated(h[..n]), h[n]));
      pos := [n] + kept;
    }
  }

  lemma EmptyHistory()
    ensures LastPositions([], [])
  {
  }

  /** MAIN: the column holds exactly the newest spellings of the eight most recent distinct names. */
  lemma EightMostRecent(h: seq<string>) returns (pos: seq<nat>)
    ensures LastPositions(h, pos) && |Touched(h)| == (if |pos| < 8 then |pos| else 8)
    ensures forall a :: 0 <= a < |Touched(h)| ==> pos[a] < |h| && Touched(h)[a] == h[pos[a]]
  {
    pos := UntruncatedIsLastSpellings(h);
    TruncateOnce(h);
  }

  // ---- The profile row ----

  const AMOUNTS_KEPT := 100
  const HOURS_KEPT := 48

  /** A transaction as the profile sees it, the amount in minor units. */
  datatype Seen = Seen(amount: int, country: string, merchant: string, device: Option<string>, time: int)

  function HourOf(t: Seen): int {
    t.time / TICKS_PER_HOUR % HOURS_PER_DAY
  }

  function Amounts(h: seq<Seen>): seq<int> {
    seq(|h|, i requires 0 <= i < |h| => h[i].amount)
  }

  function CountriesOf(h: seq<Seen>): seq<string> {
    seq(|h|, i requires 0 <= i < |h| => h[i].country)
  }

  function MerchantsOf(h: seq<Seen>): seq<string> {
    seq(|h|, i requires 0 <= i < |h| => h[i].merchant)
  }

  function HoursOf(h: seq<Seen>): seq<int> {
    seq(|h|, i requires 0 <= i < |h| => HourOf(h[i]))
  }

  /** Only transactions with a device identifier touch the device list. */
  function DevicesOf(h: seq<Seen>): seq<string> {
    if h == [] then []
    else DevicesOf(h[..|h| - 1]) + if Missing(h[|h| - 1].device) then [] else [h[|h| - 1].device.value]
  }

  lemma AmountsSnoc(h: seq<Seen>, t: Seen)
    ensures LastOf(AMOUNTS_KEPT, Amounts(h + [t]))
         == LastOf(AMOUNTS_KEPT, LastOf(AMOUNTS_KEPT, Amounts(h)) + [t.amount])
  {
    assert Amounts(h + [t]) == Amounts(h) + [t.amount];
    LastOfSnoc(AMOUNTS_KEPT, Amounts(h), t.amount);
  }

  lemma HoursSnoc(h: seq<Seen>, t: Seen)
    ensures LastOf(HOURS_KEPT, HoursOf(h + [t])) == LastOf(HOURS_KEPT, LastOf(HOURS_KEPT, HoursOf(h)) + [HourOf(t)])
  {
    assert HoursOf(h + [t]) == HoursOf(h) + [HourOf(t)];
    LastOfSnoc(HOURS_KEPT, HoursOf(h), HourOf(t));
  }

  lemma NamesSnoc(h: seq<Seen>, t: Seen)
    ensures Touched(CountriesOf(h + [t])) == Touch(Touched(CountriesOf(h)), t.country)
    ensures Touched(MerchantsOf(h + [t])) == Touch(Touched(MerchantsOf(h)), t.merchant)
    ensures Touched(DevicesOf(h + [t]))
         == if Missing(t.device) then Touched(DevicesOf(h)) else Touch(Touched(DevicesOf(h)), t.device.value)
  {
    hide Touch;
    assert CountriesOf(h + [t])[..|h|] == CountriesOf(h);
    assert MerchantsOf(h + [t])[..|h|] == MerchantsOf(h);
    assert (h + [t])[..|h|] == h;
    var ids, after := DevicesOf(h), DevicesOf(h + [t]);
    if Missing(t.device) {
      assert after == ids + [] == ids;
    } else {
      assert after == ids + [t.device.value];
      assert after[..|ids|] == ids;
    }
  }

  /** The hour of the day in coordinated universal time. */
  lemma HourMeaning(t: Seen, day: int, hour: int, rest: int)
    requires 0 <= hour < 24 && 0 <= rest < 36_000_000_000 && t.time == (24 * day + hour) * 36_000_000_000 + rest
    ensures HourOf(t) == hour
  {
    assert t.time / 36_000_000_000 == 24 * day + hour;
    assert (24 * day + hour) % 24 == hour;
  }

  /** A transaction touches the device list exactly if it has an identifier that is not blank. */
  lemma DevicesMeaning(h: seq<Seen>, t: Seen)
    ensures DevicesOf([]) == []
    ensures DevicesOf(h + [t]) ==
      DevicesOf(h) + if t.device.Some? && !IsWhiteSpace(t.device.value) then [t.device.value] else []
  {
    assert (h + [t])[..|h|] == h;
  }

  /** How full the two windows are after a history. */
  lemma ValidColumns(h: seq<Seen>)
    ensures |LastOf(AMOUNTS_KEPT, Amounts(h))| <= 100
    ensures |LastOf(HOURS_KEPT, HoursOf(h))| <= 48
  {
  }

  lemma Undivided(x: real, y: real)
    requires y != 0.0
    ensures x / y * y == x
  {
  }

  lemma MiddleRank(amounts: seq<int>, median: int)
    requires IsRank(amounts, median, |amounts| / 2 + 1)
    ensures median in amounts && |Below(amounts, median)| <= |amounts| / 2 < |UpTo(amounts, median)|
  {
    CountMeaning(amounts, median);
  }

  lemma MiddleOfSorted(amounts: seq<int>)
    requires amounts != []
    ensures |Sort(amounts)| == |amounts|
    ensures IsRank(amounts, Sort(amounts)[|amounts| / 2], |amounts| / 2 + 1)
  {
    SortRanks(amounts, |amounts| / 2 + 1);
  }

  lemma RollWindow(amounts: seq<int>, amount: int)
    requires |amounts| <= AMOUNTS_KEPT
    ensures LastOf(AMOUNTS_KEPT, amounts + [amount]) == if |amounts| < 100 then amounts + [amount] else (amounts + [amount])[1..]
  {
  }

  /** What the two statistics columns say, once they hold the middle rank and the mean. */
  lemma Statistics(row: ProfileRow)
    requires row.amounts != [] && IsRank(row.amounts, row.median, |row.amounts| / 2 + 1)
    requires row.average == Sum(row.amounts) as real / |row.amounts| as real
    ensures row.AmountStatistics()
    ensures row.median in row.amounts
    ensures |Below(row.amounts, row.median)| <= |row.amounts| / 2 < |UpTo(row.amounts, row.median)|
    ensures row.average * |row.amounts| as real == Sum(row.amounts) as real
  {
    hide IsRank, Sum, Below, UpTo;
    MiddleRank(row.amounts, row.median);
    Undivided(Sum(row.amounts) as real, |row.amounts| as real);
  }

  class ProfileRow {
    var amounts: seq<int>
    var average: real
    var median: int
    var countries: seq<string>
    var merchants: seq<string>
    var devices: seq<string>
    var hours: seq<int>
    var lifetime: nat
    ghost var history: seq<Seen>

    /** Every column is the stated function of the whole history. */
    ghost predicate Valid()
      reads this
    {
      && amounts == LastOf(AMOUNTS_KEPT, Amounts(history))
      && hours == LastOf(HOURS_KEPT, HoursOf(history))
      && countries == Touched(CountriesOf(history))
      && merchants == Touched(MerchantsOf(history))
      && devices == Touched(DevicesOf(history))
      && lifetime == |history|
      && (history != [] ==> amounts != [] && AmountStatistics())
    }

    /** The median column has the middle rank of the kept amounts, the average column is their mean. */
    ghost predicate AmountStatistics()
      requires amounts != []
      reads this`amounts, this`average, this`median
    {
      && IsRank(amounts, median, |amounts| / 2 + 1)
      && average == Sum(amounts) as real / |amounts| as real
    }

    /** The row inserted for an account that has none. */
    constructor (t: Seen)
      ensures Valid() && history == []
    {
      amounts, countries, merchants, devices, hours := [], [], [], [], [];
      average, median := t.amount as real, t.amount;
      lifetime, history := 0, [];
    }

    /** The amount window, its mean and its median. */
    method RollAmounts(amount: int)
      requires |amounts| <= AMOUNTS_KEPT
      modifies this`amounts, this`average, this`median
      ensures amounts == LastOf(AMOUNTS_KEPT, old(amounts) + [amount]) && amounts != []
      ensures amounts == (if |old(amounts)| < 100 then old(amounts) else old(amounts)[1..]) + [amount]
      ensures AmountStatistics()
      ensures median in amounts && |Below(amounts, median)| <= |amounts| / 2 < |UpTo(amounts, median)|
      ensures average * |amounts| as real == Sum(amounts) as real
    {
      hide Sum, Sort, LastOf, IsRank, Below, UpTo, Count, AmountStatistics;
      RollWindow(amounts, amount);
      amounts := amounts + [amount];
      if |amounts| > AMOUNTS_KEPT {
        amounts := amounts[1..];
      }
      average := Sum(amounts) as real / |amounts| as real;
      MiddleOfSorted(amounts);
      var sorted := Sort(amounts);
      median := sorted[|sorted| / 2];
      Statistics(this);
    }

    /** The window of hours. */
    method RollHours(hour: int)
      requires |hours| <= HOURS_KEPT
      modifies this`hours
      ensures hours == LastOf(HOURS_KEPT, old(hours) + [hour])
      ensures hours == (if |old(hours)| < 48 then old(hours) else old(hours)[1..]) + [hour]
    {
      hours := hours + [hour];
      hours := if |hours| > HOURS_KEPT then hours[|hours| - HOURS_KEPT..] else hours;
    }

    /** The columns of names. */
    method TouchNames(t: Seen)
      modifies this`countries, this`merchants, this`devices
      ensures countries == Touch(old(countries), t.country)
      ensures merchants == Touch(old(merchants), t.merchant)
      ensures devices == if Missing(t.device) then old(devices) else Touch(old(devices), t.device.value)
    {
      hide Touch;
      countries := Touch(countries, t.country);
      merchants := Touch(merchants, t.merchant);
      if !Missing(t.device) {
        devices := Touch(devices, t.device.value);
      }
    }

    method ApplyTransaction(t: Seen)
      requires Valid()
      modifies this
      ensures Valid() && history == old(history) + [t]
      ensures amounts == (if |old(amounts)| < 100 then old(amounts) else old(amounts)[1..]) + [t.amount]
      ensures hours == (if |old(hours)| < 48 then old(hours) else old(hours)[1..]) + [HourOf(t)]
      ensures median in amounts && |Below(amounts, median)| <= |amounts| / 2 < |UpTo(amounts, median)|
      ensures average * |amounts| as real == Sum(amounts) as real
      ensures lifetime == old(lifetime) + 1
    {
      hide Touch, Touched, Count, Sum, Take, IsRank, Amounts, HoursOf, CountriesOf, MerchantsOf, DevicesOf, HourOf, AmountStatistics, LastOf, Below, UpTo;
      ValidColumns(history);
      AmountsSnoc(history, t);
      HoursSnoc(history, t);
      NamesSnoc(history, t);
      RollAmounts(t.amount);
      lifetime := lifetime + 1;
      TouchNames(t);
      RollHours(HourOf(t));
      history := history + [t];
    }
  }

  /** MAIN: at most half of the kept amounts lie below the median and more than half at or below it, and no other
      value has that rank in any order of arrival. */
  lemma MedianMeaning(amounts: seq<int>, median: int, amounts': seq<int>, median': int)
    requires IsRank(amounts, median, |amounts| / 2 + 1)
    requires multiset(amounts) == multiset(amounts') && IsRank(amounts', median', |amounts| / 2 + 1)
    ensures |Below(amounts, median)| <= |amounts| / 2 < |UpTo(amounts, median)|
    ensures median == median'
  {
    CountMeaning(amounts, median);
    RankPermutes(amounts, amounts', median', |amounts| / 2 + 1);
    RankOrder(amounts, median, |amounts| / 2 + 1, median', |amounts| / 2 + 1);
  }

  // ---- Known devices ----

  const TRUST_AFTER := 5

  datatype Device = Device(firstSeen: int, lastSeen: int, trusted: bool, count: nat)

  datatype Sighting = Sighting(device: string, time: int)

  function Sightings(h: seq<Sighting>, device: string): seq<Sighting> {
    if h == [] then []
    else Sightings(h[..|h| - 1], device) + if h[|h| - 1].device == device then [h[|h| - 1]] else []
  }

  /** What the row of a device first seen here must say after its sightings. */
  ghost predicate Describes(d: Device, seen: seq<Sighting>) {
    && seen != [] && d.count == |seen|
    && d.firstSeen == seen[0].time && d.lastSeen == seen[|seen| - 1].time
    && (d.trusted <==> |seen| >= TRUST_AFTER)
  }

  /** The known devices of one customer. */
  class DeviceTable {
    var rows: map<string, Device>
    ghost var history: seq<Sighting>

    /** MAIN: a row exists for exactly the sighted devices, and it is trusted exactly from the fifth sighting on. */
    ghost predicate Valid()
      reads this
    {
      forall d: string ::
        && (d in rows <==> Sightings(history, d) != [])
        && (d in rows ==> Describes(rows[d], Sightings(history, d)))
    }

    constructor ()
      ensures Valid() && history == [] && rows == map[]
    {
      rows, history := map[], [];
    }

    method See(device: string, time: int)
      requires Valid()
      modifies this
      ensures Valid() && history == old(history) + [Sighting(device, time)]
      ensures rows.Keys == old(rows).Keys + {device}
      ensures forall d :: d in old(rows) && d != device ==> rows[d] == old(rows)[d]
      ensures rows[device] == if device !in old(rows) then Device(time, time, false, 1)
                              else Device(old(rows)[device].firstSeen, time, old(rows)[device].count >= 4, old(rows)[device].count + 1)
    {
      hide Sightings;
      ghost var h, before := history, rows;
      if device !in rows {
        rows := rows[device := Device(time, time, false, 1)];
      } else {
        var row := rows[device];
        var count := row.count + 1;
        rows := rows[device := Device(row.firstSeen, time, if count >= TRUST_AFTER then true else row.trusted, count)];
      }
      history := h + [Sighting(device, time)];
      forall d: string
        ensures d in rows <==> Sightings(history, d) != []
        ensures d in rows ==> Describes(rows[d], Sightings(history, d))
      {
        SightingsSnoc(h, Sighting(device, time), d);
      }
    }
  }

  lemma SightingsSnoc(h: seq<Sighting>, s: Sighting, device: string)
    ensures Sightings(h + [s], device) == if s.device == device then Sightings(h, device) + [s] else Sightings(h, device)
  {
    assert (h + [s])[..|h|] == h;
  }

  // ---- The category column ----

  /** A JSON array element of the category column: an enum name as text, or an enum number. */
  datatype Token = Name(category: Category) | Number(category: Category)

  /** Reading the column as a list of strings throws on a number. */
  function DecodeNames(column: seq<Token>): Option<seq<Category>> {
    if column == [] then Some([])
    else if column[0].Number? then None
    else
      match DecodeNames(column[1..])
      case None => None
      case Some(rest) => Some([column[0].category] + rest)
  }

  function Numbers(names: seq<Category>): seq<Token> {
    seq(|names|, i requires 0 <= i < |names| => Number(names[i]))
  }

  function Except(names: seq<Category>, c: Category): seq<Category> {
    if names == [] then [] else (if names[0] == c then [] else [names[0]]) + Except(names[1..], c)
  }

  /** The column is read as names but written back as numbers; `None` where reading throws. */
  function TouchCategory(column: seq<Token>, c: Category): Option<seq<Token>> {
    match DecodeNames(column)
    case None => None
    case Some(names) => Some(Numbers(Take(NAMES_KEPT, [c] + Except(names, c))))
  }

  function TouchedCategories(h: seq<Category>): Option<seq<Token>> {
    if h == [] then Some([])
    else
      match TouchedCategories(h[..|h| - 1])
      case None => None
      case Some(column) => TouchCategory(column, h[|h| - 1])
  }

  /** MAIN: starting from the empty column, the update of the category column succeeds for a history of
      transactions exactly when there is at most one. */
  lemma {:induction false} CategoryColumnFails(h: seq<Category>)
    ensures TouchedCategories(h).Some? <==> |h| <= 1
    ensures |h| == 1 ==> TouchedCategories(h) == Some([Number(h[0])])
  {
    if h != [] {
      var n := |h| - 1;
      CategoryColumnFails(h[..n]);
      if n == 0 {
        assert Numbers(Take(NAMES_KEPT, [h[0]] + Except([], h[0]))) == [Number(h[0])];
      }
    }
  }
}
