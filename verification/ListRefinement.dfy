/** On regular runs the Redis store answers exactly like the in-memory list, in all nine fields. */
module ListRefinement {
  import opened Text
  import opened Money
  import opened Models
  import opened VelocityStore
  import opened VelocityRefinement

  function MinorSum(h: seq<Tx>): int {
    if h == [] then 0 else MinorSum(h[..|h| - 1]) + Minor(Last(h))
  }

  /** Millisecond times that never step back, ids that never repeat, and sums within `long`. */
  ghost predicate Regular(h: seq<Tx>) {
    && (forall i :: 0 <= i < |h| ==> h[i].time % TICKS_PER_MS == 0 && h[i].amount.Valid() && Storable(h[i]))
    && (forall i, j :: 0 <= i < j < |h| ==> h[i].time <= h[j].time)
    && (forall i, j :: 0 <= i < j < |h| ==> h[i].id != h[j].id)
    && MinorSum(h) <= INT64_MAX
  }

  lemma MinorIsNatural(t: Tx)
    requires Solvent(t)
    ensures 0 <= Minor(t) <= INT64_MAX
    ensures t.amount.amount == Minor(t) as real / 100.0
  {
    CentsExact(RoundAwayFromZero(t.amount.amount * 100.0));
  }

  lemma RegularPrefix(h: seq<Tx>)
    requires Regular(h) && h != []
    ensures Regular(h[..|h| - 1]) && Storable(Last(h)) && 0 <= Minor(Last(h)) <= INT64_MAX
    ensures forall i :: 0 <= i < |h| - 1 ==> h[i].id != Last(h).id
  {
    assert h[|h| - 1].amount.Valid();
    MinorIsNatural(Last(h));
  }

  /** At millisecond boundaries the two stores draw the same line. */
  lemma SameLine(time: int, from: int)
    requires from % TICKS_PER_MS == 0
    ensures time >= from <==> Ms(time) >= Ms(from)
  {
  }

  lemma WindowAfterAdd(z: ZSet, m: string, score: int, from: int, to: int)
    requires m !in z && score <= to
    ensures Window(z[m := score], from, to) == Window(z, from, to) + if score >= from then {m} else {}
    ensures m !in Window(z, from, to)
  {
  }

  ghost predicate UpTo(h: seq<Tx>, to: int) {
    forall i :: 0 <= i < |h| ==> Ms(h[i].time) <= to
  }

  /** One step of every recursion over the history. */
  lemma Unfold(h: seq<Tx>, from: int)
    requires h != [] && from % TICKS_PER_MS == 0
    ensures var before, t := h[..|h| - 1], Last(h);
            var recent := Ms(t.time) >= Ms(from);
            && Full(h) == Added(Full(before), t, Minor(t))
            && Since(h, from) == Since(before, from) + (if recent then [t] else [])
            && MinorSum(Since(h, from)) == MinorSum(Since(before, from)) + (if recent then Minor(t) else 0)
            && Failures(Since(h, from)) == Failures(Since(before, from)) + (if recent && t.failed then 1 else 0)
            && MinorSum(h) == MinorSum(before) + Minor(t)
  {
    var before, t := h[..|h| - 1], Last(h);
    SameLine(t.time, from);
    var kept := Since(before, from);
    MinorSumSnoc(kept, t);
    assert (kept + [t])[..|kept|] == kept;
    assert Since(before, from) + [] == Since(before, from);
  }

  lemma MinorSumSnoc(h: seq<Tx>, t: Tx)
    ensures MinorSum(h + [t]) == MinorSum(h) + Minor(t)
  {
    assert (h + [t])[..|h|] == h && Last(h + [t]) == t;
  }

  ghost predicate KnownId(h: seq<Tx>, id: string) {
    exists i :: 0 <= i < |h| && h[i].id == id
  }

  lemma KnownIdSnoc(h: seq<Tx>, id: string)
    requires h != []
    ensures KnownId(h, id) <==> KnownId(h[..|h| - 1], id) || id == Last(h).id
  {
    if KnownId(h[..|h| - 1], id) {
      var i :| 0 <= i < |h| - 1 && h[..|h| - 1][i].id == id;
      assert h[i].id == id;
    }
    assert h[|h| - 1] == Last(h);
    assert forall i :: 0 <= i < |h| - 1 ==> h[i] == h[..|h| - 1][i];
  }

  lemma LastIdIsNew(h: seq<Tx>)
    requires Regular(h) && h != []
    ensures !KnownId(h[..|h| - 1], Last(h).id)
  {
    var before := h[..|h| - 1];
    assert forall i :: 0 <= i < |before| ==> before[i] == h[i];
    assert Last(h) == h[|h| - 1];
  }

  lemma {:induction false} IdsKnown(h: seq<Tx>, m: string)
    ensures m in Full(h).tx || m in Full(h).fails ==> KnownId(h, m)
  {
    if h != [] {
      IdsKnown(h[..|h| - 1], m);
      Unfold(h, 0);
      KnownIdSnoc(h, m);
    }
  }

  lemma {:induction false} CountAgrees(h: seq<Tx>, from: int, to: int)
    requires Regular(h) && UpTo(h, to) && from % TICKS_PER_MS == 0
    ensures |Window(Full(h).tx, Ms(from), to)| == |Since(h, from)|
    ensures |Window(Full(h).fails, Ms(from), to)| == Failures(Since(h, from))
  {
    if h != [] {
      var before, t := h[..|h| - 1], Last(h);
      RegularPrefix(h);
      CountAgrees(before, from, to);
      LastIdIsNew(h);
      IdsKnown(before, t.id);
      Unfold(h, from);
      assert h[|h| - 1] == t;
      hide Full, Since, Failures, Window, Regular, KnownId;
      WindowAfterAdd(Full(before).tx, t.id, Ms(t.time), Ms(from), to);
      WindowAfterAdd(Full(before).fails, t.id, Ms(t.time), Ms(from), to);
    }
  }

  ghost predicate KnownMember(h: seq<Tx>, m: string) {
    exists i :: 0 <= i < |h| && SpendMember(h[i].id, Minor(h[i])) == m
  }

  lemma KnownMemberSnoc(h: seq<Tx>, m: string)
    requires h != []
    ensures KnownMember(h, m) <==> KnownMember(h[..|h| - 1], m) || m == SpendMember(Last(h).id, Minor(Last(h)))
  {
    hide SpendMember, Minor;
    var before := h[..|h| - 1];
    if KnownMember(before, m) {
      var i :| 0 <= i < |before| && SpendMember(before[i].id, Minor(before[i])) == m;
      assert h[i] == before[i];
    }
    assert h[|h| - 1] == Last(h);
    assert forall i :: 0 <= i < |h| - 1 ==> h[i] == before[i];
  }

  lemma {:induction false} MembersKnown(h: seq<Tx>, m: string)
    ensures m in Full(h).spend ==> KnownMember(h, m)
  {
    hide SpendMember, Minor;
    if h != [] {
      MembersKnown(h[..|h| - 1], m);
      Unfold(h, 0);
      KnownMemberSnoc(h, m);
    }
  }

  lemma LastMemberIsNew(h: seq<Tx>)
    requires Regular(h) && h != []
    ensures !KnownMember(h[..|h| - 1], SpendMember(Last(h).id, Minor(Last(h))))
  {
    hide SpendMember, Minor;
    var before, t := h[..|h| - 1], Last(h);
    RegularPrefix(h);
    forall i | 0 <= i < |before| ensures SpendMember(before[i].id, Minor(before[i])) != SpendMember(t.id, Minor(t)) {
      assert h[i] == before[i] && h[i].amount.Valid() && Storable(h[i]);
      MinorIsNatural(h[i]);
      if SpendMember(before[i].id, Minor(before[i])) == SpendMember(t.id, Minor(t)) {
        SpendMemberInjective(h[i].id, Minor(h[i]), t.id, Minor(t));
      }
    }
  }

  lemma SumAfterAdd(z: ZSet, m: string, score: int, from: int, to: int)
    requires m !in z && score <= to
    ensures SumParsed(Window(z[m := score], from, to)) == SumParsed(Window(z, from, to)) + if score >= from then Parsed(m) else 0
  {
    hide Parsed;
    WindowAfterAdd(z, m, score, from, to);
    if score >= from {
      SumParsedInsert(Window(z, from, to), m);
    } else {
      assert Window(z[m := score], from, to) == Window(z, from, to);
    }
  }

  lemma {:induction false} SumAgrees(h: seq<Tx>, from: int, to: int)
    requires Regular(h) && UpTo(h, to) && from % TICKS_PER_MS == 0
    ensures SumParsed(Window(Full(h).spend, Ms(from), to)) == MinorSum(Since(h, from)) <= MinorSum(h)
  {
    if h == [] {
      assert Window(Full(h).spend, Ms(from), to) == {};
    } else {
      hide SpendMember, Parsed, Full, Since, MinorSum, Window, Regular, KnownMember, SumParsed, Minor;
      var before, t := h[..|h| - 1], Last(h);
      RegularPrefix(h);
      SumAgrees(before, from, to);
      LastMemberIsNew(h);
      MembersKnown(before, SpendMember(t.id, Minor(t)));
      SpendMemberDecodes(t.id, Minor(t));
      Unfold(h, from);
      assert h[|h| - 1] == t;
      SumAfterAdd(Full(before).spend, SpendMember(t.id, Minor(t)), Ms(t.time), Ms(from), to);
    }
  }

  /** Every member of a timed set is stamped with its own score. */
  ghost predicate AllStamped(z: ZSet) {
    forall m :: m in z ==> Stamped(m, z[m])
  }

  lemma {:induction false} NamesAgree(h: seq<Tx>, from: int, to: int)
    requires UpTo(h, to) && from % TICKS_PER_MS == 0
    ensures Names(Window(Full(h).merchants, Ms(from), to)) == Merchants(Since(h, from))
    ensures Names(Window(Full(h).countries, Ms(from), to)) == Countries(Since(h, from))
    ensures AllStamped(Full(h).merchants) && AllStamped(Full(h).countries)
  {
    if h == [] {
      NamesOfNothing(from, to);
    } else {
      hide *;
      var before, t := h[..|h| - 1], Last(h);
      assert UpTo(before, to) && Ms(t.time) <= to by { UpToPrefix(h, to); }
      NamesAgree(before, from, to);
      UnfoldNames(h, from);
      NamesAfterAdd(Full(before).merchants, Ms(t.time), t.merchant, Ms(from), to);
      NamesAfterAdd(Full(before).countries, Ms(t.time), t.country, Ms(from), to);
      SetsAfterAdd(Since(before, from), t);
      assert Since(before, from) + [] == Since(before, from);
    }
  }

  lemma UpToPrefix(h: seq<Tx>, to: int)
    requires UpTo(h, to) && h != []
    ensures UpTo(h[..|h| - 1], to) && Ms(Last(h).time) <= to
  {
    assert Ms(h[|h| - 1].time) <= to;
  }

  lemma UnfoldNames(h: seq<Tx>, from: int)
    requires h != [] && from % TICKS_PER_MS == 0
    ensures var before, t := h[..|h| - 1], Last(h);
            && Since(h, from) == Since(before, from) + (if Ms(t.time) >= Ms(from) then [t] else [])
            && Full(h).merchants == Full(before).merchants[TimedMember(Ms(t.time), t.merchant) := Ms(t.time)]
            && Full(h).countries == Full(before).countries[TimedMember(Ms(t.time), t.country) := Ms(t.time)]
  {
    hide TimedMember, SpendMember, Minor, Since, Full, Fold;
    Unfold(h, from);
  }

  lemma NamesOfNothing(from: int, to: int)
    ensures Names(Window(Full([]).merchants, Ms(from), to)) == Merchants(Since([], from)) == {}
    ensures Names(Window(Full([]).countries, Ms(from), to)) == Countries(Since([], from)) == {}
    ensures AllStamped(Full([]).merchants) && AllStamped(Full([]).countries)
  {
  }

  /** The score of a timed member is the number before its first colon. */
  ghost predicate Stamped(m: string, score: int) {
    IndexOf(m, ':') >= 0 && m[..IndexOf(m, ':')] == PrintInt(score)
  }

  lemma TimedIsStamped(now: int, name: string)
    ensures Stamped(TimedMember(now, name), now)
  {
    PrintedIntHasNoColon(now);
    FirstSeparator(PrintInt(now), ':', name);
    assert TimedMember(now, name)[..|PrintInt(now)|] == PrintInt(now);
  }

  lemma {:induction false} PrintNatInjective(a: nat, b: nat)
    requires PrintNat(a) == PrintNat(b)
    ensures a == b
  {
    ParseDigitsPrintNat(a);
    ParseDigitsPrintNat(b);
  }

  lemma PrintIntInjective(a: int, b: int)
    requires PrintInt(a) == PrintInt(b)
    ensures a == b
  {
    assert forall n: nat :: PrintNat(n)[0] != '-';
    if a < 0 && b < 0 {
      assert PrintNat(-a) == PrintInt(a)[1..] && PrintNat(-b) == PrintInt(b)[1..];
      PrintNatInjective(-a, -b);
    } else if a >= 0 && b >= 0 {
      PrintNatInjective(a, b);
    }
  }

  lemma NamesAfterAdd(z: ZSet, now: int, name: string, from: int, to: int)
    requires AllStamped(z) && now <= to
    ensures var z' := z[TimedMember(now, name) := now];
            && Names(Window(z', from, to)) == Names(Window(z, from, to)) + (if now >= from then {Fold(name)} else {})
            && AllStamped(z')
  {
    var member := TimedMember(now, name);
    TimedIsStamped(now, name);
    TimedMemberDecodes(now, name);
    if member in z {
      assert Stamped(member, z[member]);
      PrintIntInjective(z[member], now);
    }
    hide TimedMember, Fold, Names, IndexOf, PrintInt;
    var z' := z[member := now];
    var seen := Window(z, from, to);
    assert Window(z', from, to) == seen + if now >= from then {member} else {};
    NamesUnion(seen, {member});
    assert seen + {} == seen;
  }

  lemma NamesUnion(a: set<string>, b: set<string>)
    ensures Names(a + b) == Names(a) + Names(b)
  {
  }

  lemma SetsAfterAdd(kept: seq<Tx>, t: Tx)
    ensures Merchants(kept + [t]) == Merchants(kept) + {Fold(t.merchant)}
    ensures Countries(kept + [t]) == Countries(kept) + {Fold(t.country)}
  {
    hide Fold;
    var all := kept + [t];
    assert all[|kept|] == t && forall i :: 0 <= i < |kept| ==> all[i] == kept[i];
    forall x | x in Merchants(kept) ensures x in Merchants(all) {
      var i :| 0 <= i < |kept| && Fold(kept[i].merchant) == x;
      assert Fold(all[i].merchant) == x;
    }
    forall x | x in Countries(kept) ensures x in Countries(all) {
      var i :| 0 <= i < |kept| && Fold(kept[i].country) == x;
      assert Fold(all[i].country) == x;
    }
  }

  // ---- Money ----

  /** Adding two amounts made from minor units makes the sum of the units. */
  lemma AddMade(a: nat, b: nat, currency: string)
    requires !IsWhiteSpace(currency)
    ensures FromMinorUnits(a, currency).Some? && FromMinorUnits(b, currency).Some?
    ensures Add(FromMinorUnits(a, currency).value, FromMinorUnits(b, currency).value) == FromMinorUnits(a + b, currency)
  {
    NormaliseIdempotent(currency);
    CentsExact(a);
    CentsExact(b);
    CentsExact(a + b);
    assert a as real / 100.0 + b as real / 100.0 == (a + b) as real / 100.0;
  }

  predicate Solvent(t: Tx) {
    t.amount.amount >= 0.0 && RoundToCents(t.amount.amount) == t.amount.amount && Storable(t)
  }

  /** Folding `Money.Add` over the list is one conversion of the summed minor units. */
  lemma {:induction false} SpendIsSum(points: seq<Tx>, currency: string)
    requires forall i :: 0 <= i < |points| ==> Solvent(points[i])
    requires !IsWhiteSpace(currency)
    ensures MinorSum(points) >= 0
    ensures Spend(points, currency) == FromMinorUnits(MinorSum(points), currency)
    ensures Spend(points, currency).Some?
  {
    hide Minor, Make, FromMinorUnits, Add, Solvent, IsWhiteSpace;
    if points == [] {
      SpendOfNothing(currency);
    } else {
      var before, t := points[..|points| - 1], Last(points);
      SpendIsSum(before, currency);
      assert points[|points| - 1] == t;
      AddOne(MinorSum(before), t, currency);
    }
  }

  lemma SpendOfNothing(currency: string)
    requires !IsWhiteSpace(currency)
    ensures Make(0.0, currency) == FromMinorUnits(0, currency) && Make(0.0, currency).Some?
  {
    assert 0 as real / 100.0 == 0.0;
  }

  lemma AddOne(sum: nat, t: Tx, currency: string)
    requires Solvent(t) && !IsWhiteSpace(currency)
    ensures Minor(t) >= 0 && Make(t.amount.amount, currency).Some? && FromMinorUnits(sum, currency).Some?
    ensures Add(FromMinorUnits(sum, currency).value, Make(t.amount.amount, currency).value)
            == FromMinorUnits(sum + Minor(t), currency)
    ensures FromMinorUnits(sum + Minor(t), currency).Some?
  {
    MinorIsNatural(t);
    hide Minor;
    AddMade(sum, Minor(t), currency);
    AddMade(sum + Minor(t), 0, currency);
  }

  lemma {:induction false} SinceIsPart(h: seq<Tx>, from: int)
    ensures forall i :: 0 <= i < |Since(h, from)| ==> Since(h, from)[i] in h
  {
    if h != [] {
      SinceIsPart(h[..|h| - 1], from);
      assert h[|h| - 1] in h;
    }
  }

  lemma SpendAgrees(h: seq<Tx>, now: int, window: int, currency: string)
    requires Regular(h) && UpTo(h, Ms(now)) && now % TICKS_PER_MS == 0 && !IsWhiteSpace(currency)
    ensures SpendIn(Full(h).spend, Ms(now), window, currency) == Spend(Since(h, Ago(now, window)), currency)
    ensures Spend(Since(h, Ago(now, window)), currency).Some?
  {
    hide SpendMember, Parsed, Full, Spend, Make, Since, MinorSum, Window, SumParsed;
    var from := Ago(now, window);
    SumAgrees(h, from, Ms(now));
    SinceIsPart(h, from);
    var part := Since(h, from);
    forall i | 0 <= i < |part| ensures Solvent(part[i]) {
      PartIsRegular(h, part[i]);
    }
    SpendIsSum(part, currency);
    assert Ms(from) == Ms(now) - window;
    assert Wrap64(MinorSum(part)) == MinorSum(part);
  }

  lemma PartIsRegular(h: seq<Tx>, t: Tx)
    requires Regular(h) && t in h
    ensures Solvent(t)
  {
    var k :| 0 <= k < |h| && h[k] == t;
  }

  /** The unpruned sets answer like the list. */
  lemma FullAgrees(h: seq<Tx>)
    requires Regular(h) && h != []
    ensures SetsSnapshot(Full(h), Ms(Last(h).time), Last(h).amount.currency)
            == ListSnapshot(h, Last(h).time, Last(h).amount.currency)
    ensures ListSnapshot(h, Last(h).time, Last(h).amount.currency).Some?
  {
    hide Full, Window, Names, Merchants, Countries, SpendIn, Spend, Since, Failures, MinorSum;
    var t := Last(h);
    var now, currency := t.time, t.amount.currency;
    assert h[|h| - 1] == t && t.amount.Valid();
    assert UpTo(h, Ms(now));
    SpendAgrees(h, now, 5 * MINUTE, currency);
    SpendAgrees(h, now, HOUR, currency);
    SpendAgrees(h, now, 24 * HOUR, currency);
    CountAgrees(h, Ago(now, MINUTE), Ms(now));
    CountAgrees(h, Ago(now, 5 * MINUTE), Ms(now));
    CountAgrees(h, Ago(now, HOUR), Ms(now));
    NamesAgree(h, Ago(now, 10 * MINUTE), Ms(now));
    NamesAgree(h, Ago(now, 30 * MINUTE), Ms(now));
    CountAgrees(h, Ago(now, 15 * MINUTE), Ms(now));
  }

  /** MAIN: after any regular history of an account the two stores answer alike in all nine fields. */
  lemma StoresAgree(h: seq<Tx>)
    requires Regular(h) && h != []
    ensures SetsSnapshot(Kept(h), Ms(Last(h).time), Last(h).amount.currency)
            == ListSnapshot(h, Last(h).time, Last(h).amount.currency)
    ensures ListSnapshot(h, Last(h).time, Last(h).amount.currency).Some?
  {
    hide SetsSnapshot, ListSnapshot, Kept, Full;
    FullAgrees(h);
    assert AllStorable(h) && Lagged(h, 12 * HOUR) by { RegularIsTame(h); }
    PruningInvisible(h, Last(h).amount.currency);
  }

  /** MAIN: after any regular history the reply of the Redis store counts, names and sums what lies in the windows of
      the history. */
  lemma RedisSummarises(h: seq<Tx>)
    requires Regular(h) && h != []
    ensures var reply := SetsSnapshot(Kept(h), Ms(Last(h).time), Last(h).amount.currency);
            reply.Some? && Summarises(reply.value, h, Last(h).time) && ProperAmounts(h)
  {
    hide SetsSnapshot, ListSnapshot, Kept, Summarises;
    StoresAgree(h);
    SnapshotMeaning(h, Last(h).time, Last(h).amount.currency);
  }

  lemma RegularIsTame(h: seq<Tx>)
    requires Regular(h)
    ensures AllStorable(h) && Lagged(h, 12 * HOUR)
  {
    hide ToMinorUnits, MinorSum;
    forall i, j | 0 <= i <= j < |h| ensures Ms(h[i].time) - Ms(h[j].time) < 12 * HOUR {
      assert h[i].time <= h[j].time;
    }
  }

  // ---- Whole runs over many accounts ----

  /** The replies of the Redis store to a run, starting from `keys`. */
  ghost function RedisReplies(keys: map<string, Sets>, run: seq<Tx>): seq<Option<Velocity>>
    decreases |run|
  {
    if run == [] then []
    else
      var t := run[0];
      var sets := Recorded(SetsOf(keys, t.account), t);
      if !Storable(t) then [None] + RedisReplies(keys, run[1..])
      else [SetsSnapshot(sets, Ms(t.time), t.amount.currency)] + RedisReplies(keys[t.account := sets], run[1..])
  }

  /** The replies of the in-memory store to a run, starting from `lists`. */
  function ListReplies(lists: map<string, seq<Tx>>, run: seq<Tx>): seq<Option<Velocity>>
    decreases |run|
  {
    if run == [] then []
    else
      var t := run[0];
      var points := Points(lists, t.account) + [t];
      [ListSnapshot(points, t.time, t.amount.currency)] + ListReplies(lists[t.account := points], run[1..])
  }

  /** Each account's history stays regular. */
  ghost predicate RegularRun(lists: map<string, seq<Tx>>, run: seq<Tx>)
    decreases |run|
  {
    run == [] ||
    (var points := Points(lists, run[0].account) + [run[0]];
     Regular(points) && RegularRun(lists[run[0].account := points], run[1..]))
  }

  ghost predicate Coupled(keys: map<string, Sets>, lists: map<string, seq<Tx>>) {
    forall account :: SetsOf(keys, account) == Kept(Points(lists, account))
  }

  /** One record on both sides: the stores stay coupled and answer alike. */
  lemma CoupledStep(keys: map<string, Sets>, lists: map<string, seq<Tx>>, t: Tx)
    requires Coupled(keys, lists) && Regular(Points(lists, t.account) + [t])
    ensures var sets := Recorded(SetsOf(keys, t.account), t);
            var points := Points(lists, t.account) + [t];
            && Storable(t)
            && Coupled(keys[t.account := sets], lists[t.account := points])
            && SetsSnapshot(sets, Ms(t.time), t.amount.currency) == ListSnapshot(points, t.time, t.amount.currency)
  {
    hide SetsSnapshot, ListSnapshot, Kept, Recorded, Regular, Storable;
    var before := Points(lists, t.account);
    var points := before + [t];
    var keys', lists' := keys[t.account := Recorded(SetsOf(keys, t.account), t)], lists[t.account := points];
    assert Last(points) == t && points[|before|] == t;
    Snoc(before, t);
    RegularPrefix(points);
    StoresAgree(points);
    forall account ensures SetsOf(keys', account) == Kept(Points(lists', account)) {
      assert SetsOf(keys, account) == Kept(Points(lists, account));
    }
  }

  /** MAIN: on runs with distinct ids, millisecond times that do not step back and sums within `long`, per
      account, every reply of the Redis store is the reply of the in-memory store. */
  lemma {:induction false} RunsAgree(keys: map<string, Sets>, lists: map<string, seq<Tx>>, run: seq<Tx>)
    requires Coupled(keys, lists) && RegularRun(lists, run)
    ensures RedisReplies(keys, run) == ListReplies(lists, run)
    decreases |run|
  {
    hide SetsSnapshot, ListSnapshot, Kept, Recorded, Coupled, Regular;
    if run != [] {
      var t := run[0];
      CoupledStep(keys, lists, t);
      RunsAgree(keys[t.account := Recorded(SetsOf(keys, t.account), t)],
                lists[t.account := Points(lists, t.account) + [t]], run[1..]);
    }
  }

  /** Driving two live stores side by side: their replies never differ. */
  method ReplayBoth(redis: RedisVelocityStore, list: InMemoryVelocityStore, run: seq<Tx>)
    returns (replies: seq<Option<Velocity>>, replies': seq<Option<Velocity>>)
    requires Coupled(redis.keys, list.points) && RegularRun(list.points, run)
    modifies redis, list
    ensures replies == replies' && |replies| == |run|
    ensures Coupled(redis.keys, list.points)
  {
    hide SetsSnapshot, ListSnapshot, Kept, Recorded, Coupled, Regular;
    replies, replies' := [], [];
    for i := 0 to |run|
      invariant replies == replies' && |replies| == i
      invariant Coupled(redis.keys, list.points) && RegularRun(list.points, run[i..])
    {
      var t := run[i];
      assert run[i..][0] == t && run[i..][1..] == run[i + 1..];
      CoupledStep(redis.keys, list.points, t);
      var reply := redis.RecordAndSnapshot(t);
      var reply' := list.RecordAndSnapshot(t);
      replies, replies' := replies + [reply], replies' + [reply'];
    }
  }
}
