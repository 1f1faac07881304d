/** Each of the thirteen rules by the customer's side of it: when it fires, with how many points, and on which keys and
    defaults. */
module RuleMeaning {
  import opened Text
  import opened Money
  import opened Rules

  /** The parameter set a rule is asked with. */
  ghost predicate Governs(p: Parameters, c: Context, code: string) {
    p == if code in c.parameters then c.parameters[code] else Parameters(code, true, 0, map[], map[], map[])
  }

  ghost predicate Decimal(x: real, p: Parameters, key: string, fallback: real) {
    x == if key in p.decimals then p.decimals[key] else fallback
  }

  ghost predicate Number(n: int, p: Parameters, key: string, fallback: int) {
    n == if key in p.ints then p.ints[key] else fallback
  }

  /** The rule hits under `code` with `points`, or with none where they are negative. */
  predicate Scores(r: Result, code: string, points: int) {
    r.Hit? && r.code == code && r.score == if points > 0 then points else 0
  }

  /** From the threshold the score; from twice the threshold one and a half times the score, a half rounded up. */
  lemma HighValueMeaning(c: Context, p: Parameters, threshold: real)
    requires Governs(p, c, "HIGH_VALUE") && Decimal(threshold, p, "threshold", 3000.0)
    ensures var amount := c.transaction.amount.amount;
      && (HighValue(c).Quiet? <==> amount < threshold)
      && (threshold <= amount < 2.0 * threshold ==> Scores(HighValue(c), "HIGH_VALUE", p.score))
      && (amount >= threshold && amount >= 2.0 * threshold && 0 <= p.score <= 1_400_000_000 ==>
            exists points: int :: Scores(HighValue(c), "HIGH_VALUE", points) && 0 <= 2 * points - 3 * p.score <= 1)
  {
    var amount := c.transaction.amount.amount;
    assert p.score as real * 1.0 == p.score as real;
    if amount >= threshold && amount >= 2.0 * threshold && 0 <= p.score <= 1_400_000_000 {
      HalfMore(p.score);
      assert Scores(HighValue(c), "HIGH_VALUE", HighValue(c).score);
    }
  }

  lemma HalfMore(score: Int32)
    requires score >= 0
    ensures 0 <= 2 * RoundAwayFromZero(score as real * 1.5) - 3 * score <= 1
  {
    var x := score as real * 1.5;
    assert 2.0 * x == (3 * score) as real;
  }

  /** Where no doubled limit overflows: one limit reached scores, one doubled limit reached scores ten more, but then at
      most fifty. */
  lemma HighVelocityMeaning(c: Context, p: Parameters, five: int, one: int, oneOld: int)
    requires Governs(p, c, "HIGH_VELOCITY") && Number(five, p, "fiveMinuteCount", 5)
    requires Number(oneOld, p, "oneMinuteCount", 3) && Number(one, p, "oneMinuteLimit", oneOld)
    requires -1_000_000_000 <= five <= 1_000_000_000 && -1_000_000_000 <= one <= 1_000_000_000 && p.score <= 1_000_000_000
    ensures var tx5, tx1 := c.velocity.tx5, c.velocity.tx1;
      && (HighVelocity(c).Quiet? <==> tx5 < five && tx1 < one)
      && (!HighVelocity(c).Quiet? && tx5 < 2 * five && tx1 < 2 * one ==> Scores(HighVelocity(c), "HIGH_VELOCITY", p.score))
      && (!HighVelocity(c).Quiet? && (tx5 >= 2 * five || tx1 >= 2 * one) ==>
            Scores(HighVelocity(c), "HIGH_VELOCITY", if p.score > 40 then 50 else p.score + 10))
  {
  }

  predicate Listed(names: seq<string>, name: string) {
    exists i :: 0 <= i < |names| && SameText(names[i], name)
  }

  lemma ListedMeaning(names: seq<string>, name: string)
    ensures ContainsIgnoreCase(names, name) <==> Listed(names, name)
  {
    hide Fold, SameText;
    forall i | 0 <= i < |names| ensures Fold(names[i]) == Fold(name) <==> SameText(names[i], name) {
      FoldMeaning(names[i], name);
    }
  }

  /** Quiet at home and in a common country. */
  lemma ForeignCountryMeaning(c: Context, p: Parameters)
    requires Governs(p, c, "FOREIGN_LOCATION")
    ensures var country := c.transaction.country;
      && (ForeignCountry(c).Quiet? <==>
            SameText(c.profile.homeCountry, country) || Listed(c.profile.commonCountries, country))
      && (!ForeignCountry(c).Quiet? ==> Scores(ForeignCountry(c), "FOREIGN_LOCATION", p.score))
  {
    hide Fold, SameText, Listed, ContainsIgnoreCase;
    FoldMeaning(c.profile.homeCountry, c.transaction.country);
    ListedMeaning(c.profile.commonCountries, c.transaction.country);
  }

  /** Quiet for a device that is known or common; a missing identifier scores under the rule's own code, an unknown one
      under the code of the parameter set. */
  lemma UnknownDeviceMeaning(c: Context, p: Parameters)
    requires Governs(p, c, "UNKNOWN_DEVICE")
    ensures var id := c.transaction.deviceId;
      if id.None? || IsWhiteSpace(id.value) then Scores(UnknownDevice(c), "UNKNOWN_DEVICE", p.score)
      else if Listed(c.knownDevices, id.value) || Listed(c.profile.commonDevices, id.value) then UnknownDevice(c).Quiet?
      else Scores(UnknownDevice(c), p.ruleCode, p.score)
  {
    hide Listed, ContainsIgnoreCase, IsWhiteSpace;
    if c.transaction.deviceId.Some? {
      ListedMeaning(c.knownDevices, c.transaction.deviceId.value);
      ListedMeaning(c.profile.commonDevices, c.transaction.deviceId.value);
    }
  }

  lemma CardNotPresentMeaning(c: Context, p: Parameters)
    requires Governs(p, c, "CARD_NOT_PRESENT")
    ensures if !c.transaction.cardPresent && c.transaction.channel in {POS, ATM, WEB, MOBILE}
            then Scores(CardNotPresent(c), "CARD_NOT_PRESENT", p.score) else CardNotPresent(c).Quiet?
  {
  }

  /** `h` is the latest transaction at a terminal or cash machine, the first listed among equals. */
  ghost predicate IsPrevious(recent: seq<Historical>, h: Historical) {
    exists i :: 0 <= i < |recent| && recent[i] == h && h.channel in {POS, ATM} && LatestAt(recent, i)
  }

  predicate LatestAt(recent: seq<Historical>, i: nat)
    requires i < |recent|
  {
    forall j :: 0 <= j < |recent| && recent[j].channel in {POS, ATM} ==>
      recent[j].time < recent[i].time || (recent[j].time == recent[i].time && i <= j)
  }

  lemma {:induction false} PreviousMeaning(recent: seq<Historical>)
    ensures LatestPhysical(recent).None? <==> forall i :: 0 <= i < |recent| ==> recent[i].channel !in {POS, ATM}
    ensures LatestPhysical(recent).Some? ==> IsPrevious(recent, LatestPhysical(recent).value)
  {
    if recent != [] {
      var rest := recent[1..];
      PreviousMeaning(rest);
      assert forall j :: 0 <= j < |rest| ==> rest[j] == recent[j + 1];
      assert forall j :: 0 < j < |recent| ==> recent[j] == rest[j - 1];
      var later := LatestPhysical(rest);
      if later.Some? {
        var i :| 0 <= i < |rest| && rest[i] == later.value && LatestAt(rest, i);
        if LatestPhysical(recent) == later && !(Physical(recent[0].channel) && later.value.time <= recent[0].time) {
          assert recent[i + 1] == later.value && LatestAt(recent, i + 1);
        }
      }
      if LatestPhysical(recent) == Some(recent[0]) && Physical(recent[0].channel)
         && (later.None? || later.value.time <= recent[0].time) {
        assert LatestAt(recent, 0);
      }
    }
  }

  /** At a terminal or cash machine, after an earlier such transaction at a known place: the implied speed exceeds the
      limit; a gap of no time counts as a minute. */
  lemma ImpossibleTravelMeaning(c: Context, p: Parameters, limit: real, previous: Historical, from: Point, to: Point)
    requires Governs(p, c, "IMPOSSIBLE_TRAVEL") && limit == (if "maxSpeedKmh" in p.doubles then p.doubles["maxSpeedKmh"] else 900.0)
    requires LatestPhysical(c.recent) == Some(previous)
    requires c.geography.resolve(previous.country, previous.city) == Some(from)
    requires c.geography.resolve(c.transaction.country, c.transaction.city) == Some(to)
    ensures var gap := c.transaction.time - previous.time;
      var minutes := if gap == 0 then 1.0 else (if gap > 0 then gap else -gap) as real / 600_000_000.0;
      if c.transaction.channel in {POS, ATM} && c.geography.distanceKm(from, to) * 60.0 > limit * minutes
      then Scores(ImpossibleTravel(c), "IMPOSSIBLE_TRAVEL", p.score) else ImpossibleTravel(c).Quiet?
  {
    var gap := c.transaction.time - previous.time;
    var ticks := if gap > 0 then gap else -gap;
    var minutes := if gap == 0 then 1.0 else ticks as real / 600_000_000.0;
    var hours := if gap == 0 then 1.0 / 60.0 else ticks as real / 36_000_000_000.0;
    assert hours * 60.0 == minutes && hours > 0.0;
    Faster(c.geography.distanceKm(from, to), hours, limit);
    Scaled(limit, hours, minutes);
  }

  lemma Faster(distance: real, hours: real, limit: real)
    requires hours > 0.0
    ensures distance / hours <= limit <==> distance <= limit * hours
  {
    var speed := distance / hours;
    assert speed * hours == distance;
    if speed <= limit {
      Product(limit - speed, hours);
      assert limit * hours - speed * hours == (limit - speed) * hours;
    } else {
      Product(speed - limit, hours);
      assert speed * hours - limit * hours == (speed - limit) * hours;
    }
  }

  lemma Product(a: real, b: real)
    requires a >= 0.0 && b > 0.0
    ensures a * b >= 0.0 && (a > 0.0 ==> a * b > 0.0)
  {
  }

  lemma Scaled(limit: real, hours: real, minutes: real)
    requires hours * 60.0 == minutes
    ensures limit * hours * 60.0 == limit * minutes
  {
  }

  /** Without an earlier place to come from, or with an unknown place, there is no speed. */
  lemma NoTravelMeaning(c: Context)
    ensures
      || c.transaction.channel !in {POS, ATM}
      || (forall i :: 0 <= i < |c.recent| ==> c.recent[i].channel !in {POS, ATM})
      || c.geography.resolve(c.transaction.country, c.transaction.city).None?
      || (LatestPhysical(c.recent).Some? &&
          c.geography.resolve(LatestPhysical(c.recent).value.country, LatestPhysical(c.recent).value.city).None?)
      ==> ImpossibleTravel(c).Quiet?
  {
    PreviousMeaning(c.recent);
  }

  /** Only four categories; an unusual one scores in full, a usual one half, cut toward zero, but at least five. */
  lemma MerchantRiskMeaning(c: Context, p: Parameters)
    requires Governs(p, c, "MERCHANT_RISK")
    ensures var category := c.transaction.category;
      if category !in {Gambling, Crypto, MoneyTransfer, Adult} then MerchantRisk(c).Quiet?
      else if category !in c.profile.commonCategories then Scores(MerchantRisk(c), "MERCHANT_RISK", p.score)
      else Scores(MerchantRisk(c), "MERCHANT_RISK", if p.score < 12 then 5 else p.score / 2)
  {
  }

  /** An hour is typical if it is at most one hour, around the clock, from a listed one; without a list the hours from
      one to four are unusual. */
  lemma UnusualTimeMeaning(c: Context, p: Parameters, day: int, hour: int, rest: int)
    requires Governs(p, c, "UNUSUAL_TIME")
    requires 0 <= hour < 24 && 0 <= rest < 36_000_000_000
    requires c.transaction.time == (24 * day + hour) * 36_000_000_000 + rest
    ensures var typical := c.profile.typicalHours;
      var quiet := if typical == [] then hour == 0 || hour > 4 else Near(typical, hour);
      if quiet then UnusualTime(c).Quiet? else Scores(UnusualTime(c), "UNUSUAL_TIME", p.score)
  {
    assert c.transaction.time / 36_000_000_000 == 24 * day + hour;
    assert (24 * day + hour) % 24 == hour;
    NearMeaning(c.profile.typicalHours, hour);
  }

  ghost predicate Near(typical: seq<int>, hour: int) {
    exists h :: h in typical && 0 <= h < 24 && h - hour in {-23, -1, 0, 1, 23}
  }

  lemma NearMeaning(typical: seq<int>, hour: int)
    requires 0 <= hour < 24
    ensures Near(typical, hour) <==> hour in typical || (hour + 23) % 24 in typical || (hour + 1) % 24 in typical
  {
    if hour in typical {
      assert hour - hour in {-23, -1, 0, 1, 23};
    }
    var before, after := (hour + 23) % 24, (hour + 1) % 24;
    assert before - hour in {-23, -1, 0, 1, 23} && after - hour in {-23, -1, 0, 1, 23};
    if h :| h in typical && 0 <= h < 24 && h - hour in {-23, -1, 0, 1, 23} {
      assert h == hour || h == before || h == after;
    }
  }

  lemma NewAccountMeaning(c: Context, p: Parameters, days: int)
    requires Governs(p, c, "NEW_ACCOUNT") && Number(days, p, "days", 14)
    ensures if c.evaluatedAt - c.profile.openedAt >= days * 864_000_000_000 then NewAccount(c).Quiet?
            else Scores(NewAccount(c), "NEW_ACCOUNT", p.score)
  {
  }

  /** From the fifth transaction on, against the median where there is one and the average otherwise. */
  lemma BehaviourDeviationMeaning(c: Context, p: Parameters, multiplier: real)
    requires Governs(p, c, "BEHAVIOURAL_DEVIATION") && Decimal(multiplier, p, "multiplier", 8.0)
    ensures var amount, f := c.transaction.amount.amount, c.profile;
      var fires := f.lifetimeCount >= 5
        && ((f.median > 0.0 && amount >= f.median * multiplier)
            || (f.median <= 0.0 && f.average > 0.0 && amount >= f.average * multiplier));
      if fires then Scores(BehaviourDeviation(c), "BEHAVIOURAL_DEVIATION", p.score) else BehaviourDeviation(c).Quiet?
  {
  }

  lemma CountRulesMeaning(c: Context, p: Parameters, countries: int, q: Parameters, failures: int)
    requires Governs(p, c, "RAPID_COUNTRY_CHANGE") && Number(countries, p, "distinctCountries", 2)
    requires Governs(q, c, "REPEATED_DECLINE") && Number(failures, q, "failures", 3)
    ensures if c.velocity.countries30 >= countries then Scores(RapidCountryChange(c), "RAPID_COUNTRY_CHANGE", p.score)
            else RapidCountryChange(c).Quiet?
    ensures if c.velocity.failed15 >= failures then Scores(RepeatedDecline(c), "REPEATED_DECLINE", q.score)
            else RepeatedDecline(c).Quiet?
  {
  }

  /** A whole number of hundreds, from the minimum on. */
  lemma RoundAmountMeaning(c: Context, p: Parameters, minimum: real)
    requires Governs(p, c, "ROUND_AMOUNT") && Decimal(minimum, p, "minimumAmount", 1000.0)
    ensures var amount := c.transaction.amount.amount;
      if amount >= minimum && (exists k: int :: amount == Hundreds(k))
      then Scores(RoundAmount(c), "ROUND_AMOUNT", p.score) else RoundAmount(c).Quiet?
  {
    var amount := c.transaction.amount.amount;
    forall k: int | amount == Hundreds(k) ensures amount.Floor == 100 * k {
    }
    if amount == amount.Floor as real && amount.Floor % 100 == 0 {
      assert amount == Hundreds(amount.Floor / 100);
    }
  }

  function Hundreds(k: int): real {
    (100 * k) as real
  }

  function RegisteredCodes(): seq<string> {
    ["HIGH_VALUE", "HIGH_VELOCITY", "FOREIGN_LOCATION", "UNKNOWN_DEVICE", "CARD_NOT_PRESENT", "IMPOSSIBLE_TRAVEL",
     "MERCHANT_RISK", "UNUSUAL_TIME", "NEW_ACCOUNT", "BEHAVIOURAL_DEVIATION", "RAPID_COUNTRY_CHANGE",
     "REPEATED_DECLINE", "ROUND_AMOUNT"]
  }

  /** The thirteen rules carry these codes in registration order. */
  lemma CatalogueIs()
    ensures |Catalogue()| == 13
    ensures forall i :: 0 <= i < 13 ==> Catalogue()[i].code == RegisteredCodes()[i]
  {
  }

  /** ... and each is evaluated by its own rule. */
  lemma CatalogueAsks(c: Context)
    ensures var rules := Catalogue();
      && rules[0].evaluate(c) == HighValue(c) && rules[1].evaluate(c) == HighVelocity(c)
      && rules[2].evaluate(c) == ForeignCountry(c) && rules[3].evaluate(c) == UnknownDevice(c)
      && rules[4].evaluate(c) == CardNotPresent(c) && rules[5].evaluate(c) == ImpossibleTravel(c)
      && rules[6].evaluate(c) == MerchantRisk(c) && rules[7].evaluate(c) == UnusualTime(c)
      && rules[8].evaluate(c) == NewAccount(c) && rules[9].evaluate(c) == BehaviourDeviation(c)
      && rules[10].evaluate(c) == RapidCountryChange(c) && rules[11].evaluate(c) == RepeatedDecline(c)
      && rules[12].evaluate(c) == RoundAmount(c)
  {
    hide HighValue, HighVelocity, ForeignCountry, UnknownDevice, CardNotPresent, ImpossibleTravel, MerchantRisk,
         UnusualTime, NewAccount, BehaviourDeviation, RapidCountryChange, RepeatedDecline, RoundAmount;
  }
}
