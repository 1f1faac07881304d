/** Pruning is invisible, and the sorted sets answer like the list. */
module VelocityRefinement {
  import opened Text
  import opened Money
  import opened VelocityStore

  /** The minor units of a storable amount. */
  function Minor(t: Tx): int {
    if ToMinorUnits(t.amount).Some? then ToMinorUnits(t.amount).value else 0
  }

  predicate Storable(t: Tx) {
    ToMinorUnits(t.amount).Some?
  }

  /** The sets of one account after a history. */
  function Kept(h: seq<Tx>): Sets {
    if h == [] then NO_SETS else Recorded(Kept(h[..|h| - 1]), h[|h| - 1])
  }

  /** The sets of a store that never prunes. */
  function Full(h: seq<Tx>): Sets {
    if h == [] then NO_SETS else Added(Full(h[..|h| - 1]), h[|h| - 1], Minor(h[|h| - 1]))
  }

  function Last(h: seq<Tx>): Tx
    requires h != []
  {
    h[|h| - 1]
  }

  // ---- Pruning is invisible ----

  /** Every recorded time is less than `lag` behind the latest one seen before it. */
  ghost predicate Lagged(h: seq<Tx>, lag: int) {
    forall i, j :: 0 <= i <= j < |h| ==> Ms(h[i].time) - Ms(h[j].time) < lag
  }

  ghost predicate AllStorable(h: seq<Tx>) {
    forall i :: 0 <= i < |h| ==> Storable(h[i])
  }

  /** `kept` is `full` without some members that are 36 hours old or older at `latest`. */
  ghost predicate Trimmed(kept: ZSet, full: ZSet, latest: int) {
    && (forall m :: m in kept ==> m in full && full[m] == kept[m])
    && (forall m :: m in full && full[m] > latest - RETENTION ==> m in kept)
  }

  lemma TrimmedStep(kept: ZSet, full: ZSet, latest: int, m: string, now: int)
    requires Trimmed(kept, full, latest)
    ensures Trimmed(Pruned(kept[m := now], now - RETENTION), full[m := now], if now > latest then now else latest)
  {
  }

  lemma TrimmedWindow(kept: ZSet, full: ZSet, latest: int, from: int, to: int)
    requires Trimmed(kept, full, latest) && from > latest - RETENTION
    ensures Window(kept, from, to) == Window(full, from, to)
  {
  }

  ghost predicate TrimmedSets(kept: Sets, full: Sets, latest: int) {
    && Trimmed(kept.tx, full.tx, latest) && Trimmed(kept.spend, full.spend, latest)
    && Trimmed(kept.merchants, full.merchants, latest) && Trimmed(kept.countries, full.countries, latest)
    && kept.fails == full.fails
  }

  function Latest(h: seq<Tx>): int
    requires h != []
  {
    if |h| == 1 then Ms(h[0].time)
    else
      var before := Latest(h[..|h| - 1]);
      if Ms(Last(h).time) > before then Ms(Last(h).time) else before
  }

  lemma {:induction false} LatestIsReached(h: seq<Tx>)
    requires h != []
    ensures exists i :: 0 <= i < |h| && Latest(h) == Ms(h[i].time)
  {
    if |h| > 1 {
      LatestIsReached(h[..|h| - 1]);
      var i :| 0 <= i < |h| - 1 && Latest(h[..|h| - 1]) == Ms(h[..|h| - 1][i].time);
      assert h[i] == h[..|h| - 1][i];
    }
    if Latest(h) == Ms(Last(h).time) {
      assert h[|h| - 1] == Last(h);
    }
  }

  lemma {:induction false} KeptIsTrimmed(h: seq<Tx>)
    requires h != [] && AllStorable(h)
    ensures TrimmedSets(Kept(h), Full(h), Latest(h))
  {
    var before, t := h[..|h| - 1], Last(h);
    var now := Ms(t.time);
    assert Storable(t);
    var kept, full := Kept(before), Full(before);
    var latest := if before == [] then now else Latest(before);
    if before != [] {
      KeptIsTrimmed(before);
    }
    assert TrimmedSets(kept, full, latest);
    TrimmedStep(kept.tx, full.tx, latest, t.id, now);
    TrimmedStep(kept.spend, full.spend, latest, SpendMember(t.id, Minor(t)), now);
    TrimmedStep(kept.merchants, full.merchants, latest, TimedMember(now, t.merchant), now);
    TrimmedStep(kept.countries, full.countries, latest, TimedMember(now, t.country), now);
  }

  /** MAIN: with recorded times less than 12 hours behind the latest one seen, the answer is that of a
      store that never prunes, even when members are added again with other scores. */
  lemma PruningInvisible(h: seq<Tx>, currency: string)
    requires h != [] && AllStorable(h) && Lagged(h, 12 * HOUR)
    ensures SetsSnapshot(Kept(h), Ms(Last(h).time), currency) == SetsSnapshot(Full(h), Ms(Last(h).time), currency)
  {
    hide Kept, Full, Window, SumParsed, Names, Wrap64, Make, TrimmedSets;
    KeptIsTrimmed(h);
    LatestIsReached(h);
    var i :| 0 <= i < |h| && Latest(h) == Ms(h[i].time);
    var now, kept, full := Ms(Last(h).time), Kept(h), Full(h);
    assert Ms(h[i].time) - Ms(h[|h| - 1].time) < 12 * HOUR;
    SameWindows(kept, full, Latest(h), now, MINUTE);
    SameWindows(kept, full, Latest(h), now, 5 * MINUTE);
    SameWindows(kept, full, Latest(h), now, 10 * MINUTE);
    SameWindows(kept, full, Latest(h), now, 30 * MINUTE);
    SameWindows(kept, full, Latest(h), now, HOUR);
    SameWindows(kept, full, Latest(h), now, 24 * HOUR);
    assert kept.fails == full.fails by { SameFails(kept, full, Latest(h)); }
  }

  lemma SameFails(kept: Sets, full: Sets, latest: int)
    requires TrimmedSets(kept, full, latest)
    ensures kept.fails == full.fails
  {
  }

  lemma SameWindows(kept: Sets, full: Sets, latest: int, now: int, window: int)
    requires TrimmedSets(kept, full, latest) && latest - now < 12 * HOUR && window <= 24 * HOUR
    ensures Window(kept.tx, now - window, now) == Window(full.tx, now - window, now)
    ensures Window(kept.spend, now - window, now) == Window(full.spend, now - window, now)
    ensures Window(kept.merchants, now - window, now) == Window(full.merchants, now - window, now)
    ensures Window(kept.countries, now - window, now) == Window(full.countries, now - window, now)
  {
    TrimmedWindow(kept.tx, full.tx, latest, now - window, now);
    TrimmedWindow(kept.spend, full.spend, latest, now - window, now);
    TrimmedWindow(kept.merchants, full.merchants, latest, now - window, now);
    TrimmedWindow(kept.countries, full.countries, latest, now - window, now);
  }

  // ---- Twelve hours of slack is exact ----

  const POUND := Money(1.0, "GBP")

  function Probe(id: string, hours: int): Tx {
    Tx(id, "A", POUND, "M", "GB", (EPOCH_MS + hours * HOUR) * TICKS_PER_MS, false)
  }

  /** One at hour 0, one at hour 36 that prunes it, one at hour 24 whose day reaches back to hour 0. */
  function Probes(): seq<Tx> {
    [Probe("X", 0)] + [Probe("Y", 36)] + [Probe("Z", 24)]
  }

  lemma Snoc(h: seq<Tx>, t: Tx)
    ensures Kept(h + [t]) == Recorded(Kept(h), t)
    ensures Full(h + [t]) == Added(Full(h), t, Minor(t))
  {
    assert (h + [t])[..|h|] == h;
  }

  lemma OtherMember(id: string, id': string)
    requires id != id'
    ensures SpendMember(id, 100) != SpendMember(id', 100)
  {
    if SpendMember(id, 100) == SpendMember(id', 100) {
      SpendMemberInjective(id, 100, id', 100);
    }
  }

  lemma SpendSnoc(h: seq<Tx>, t: Tx)
    requires t.amount == POUND
    ensures var now, m := Ms(t.time), SpendMember(t.id, 100);
            && Kept(h + [t]).spend == Pruned(Kept(h).spend[m := now], now - RETENTION)
            && Full(h + [t]).spend == Full(h).spend[m := now]
  {
    Snoc(h, t);
  }

  /** The three adds and prunes on bare sorted sets. */
  lemma ThreeAdds(x: string, y: string, z: string)
    requires x != y && x != z && y != z
    ensures var once := Pruned(map[][x := 0], 0 - RETENTION);
            var twice := Pruned(once[y := 36 * HOUR], 36 * HOUR - RETENTION);
            Pruned(twice[z := 24 * HOUR], 24 * HOUR - RETENTION) == map[y := 36 * HOUR, z := 24 * HOUR]
  {
    var once := Pruned(map[][x := 0], 0 - RETENTION);
    var twice := Pruned(once[y := 36 * HOUR], 36 * HOUR - RETENTION);
    assert once == map[x := 0];
    assert twice == map[y := 36 * HOUR];
  }

  /** What is left of the spend members after the three probes. */
  lemma ProbeSpends()
    ensures var x, y, z := SpendMember("X", 100), SpendMember("Y", 100), SpendMember("Z", 100);
            && x != y && x != z && y != z
            && Kept(Probes()).spend == map[y := 36 * HOUR, z := 24 * HOUR]
            && Full(Probes()).spend == map[x := 0, y := 36 * HOUR, z := 24 * HOUR]
  {
    hide SpendMember, TimedMember, Fold, Kept, Full, Pruned, Ms;
    var x, y, z := Probe("X", 0), Probe("Y", 36), Probe("Z", 24);
    NothingKept();
    OtherMember("X", "Y");
    OtherMember("X", "Z");
    OtherMember("Y", "Z");
    ProbeTime("X", 0);
    ProbeTime("Y", 36);
    ProbeTime("Z", 24);
    SpendSnoc([], x);
    SpendSnoc([x], y);
    SpendSnoc([x] + [y], z);
    assert [] + [x] == [x];
    ThreeAdds(SpendMember("X", 100), SpendMember("Y", 100), SpendMember("Z", 100));
  }

  lemma NothingKept()
    ensures Kept([]) == NO_SETS && Full([]) == NO_SETS
  {
  }

  lemma ProbeTime(id: string, hours: nat)
    ensures Ms(Probe(id, hours).time) == hours * HOUR
  {
  }

  lemma ProbeWindows()
    ensures var x, z := SpendMember("X", 100), SpendMember("Z", 100);
            var kept, full := Kept(Probes()).spend, Full(Probes()).spend;
            && x != z
            && Window(kept, 24 * HOUR - 5 * MINUTE, 24 * HOUR) == {z}
            && Window(kept, 24 * HOUR - HOUR, 24 * HOUR) == {z}
            && Window(kept, 24 * HOUR - 24 * HOUR, 24 * HOUR) == {z}
            && Window(full, 24 * HOUR - 24 * HOUR, 24 * HOUR) == {x, z}
  {
    hide Kept, Full, Probes, SpendMember;
    ProbeSpends();
  }

  lemma SumOfOneAndTwo(x: string, z: string)
    requires x != z && Parsed(x) == Parsed(z) == 100
    ensures SumParsed({z}) == 100 && SumParsed({x, z}) == 200
  {
    hide Parsed;
    SumParsedInsert({z}, x);
    SumParsedInsert({}, z);
    assert {z} + {x} == {x, z} && {} + {z} == {z};
  }

  lemma ProbesDisagree()
    ensures SetsSnapshot(Kept(Probes()), 24 * HOUR, "GBP") != SetsSnapshot(Full(Probes()), 24 * HOUR, "GBP")
  {
    hide SpendMember, Fold, Kept, Full, Parsed, Names, Wrap64, FromMinorUnits, Window, SumParsed, Probes;
    ProbeWindows();
    SpendMemberDecodes("X", 100);
    SpendMemberDecodes("Z", 100);
    SumOfOneAndTwo(SpendMember("X", 100), SpendMember("Z", 100));
    DifferentPounds();
  }

  lemma DifferentPounds()
    ensures FromMinorUnits(Wrap64(100), "GBP").Some?
    ensures FromMinorUnits(Wrap64(100), "GBP") != FromMinorUnits(Wrap64(200), "GBP")
  {
    assert !IsSpace("GBP"[0]);
    FromMinorUnitsRoundTrip(100, "GBP");
    FromMinorUnitsRoundTrip(200, "GBP");
  }

  ghost predicate SameAnswer(h: seq<Tx>, currency: string)
    requires h != []
  {
    SetsSnapshot(Kept(h), Ms(Last(h).time), currency) == SetsSnapshot(Full(h), Ms(Last(h).time), currency)
  }

  /** MAIN: pruning is invisible on every history with lag below `lag` if and only if `lag` is at most 12 hours. */
  lemma PruningInvisibleIff(lag: int)
    ensures (forall h, currency :: h != [] && AllStorable(h) && Lagged(h, lag) ==> SameAnswer(h, currency)) <==> lag <= 12 * HOUR
  {
    hide Kept, Full, SetsSnapshot;
    if lag <= 12 * HOUR {
      forall h, currency | h != [] && AllStorable(h) && Lagged(h, lag) ensures SameAnswer(h, currency) {
        PruningInvisible(h, currency);
      }
    } else {
      ProbesDisagree();
      assert Lagged(Probes(), lag) && AllStorable(Probes()) by { ProbesQualify(lag); }
      assert Ms(Last(Probes()).time) == 24 * HOUR;
      assert !SameAnswer(Probes(), "GBP");
    }
  }

  lemma ProbesQualify(lag: int)
    requires lag > 12 * HOUR
    ensures Lagged(Probes(), lag) && AllStorable(Probes())
  {
    assert ToMinorUnits(POUND) == Some(100);
  }
}
