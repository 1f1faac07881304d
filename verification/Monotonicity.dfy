/** How the whole catalogue reacts to more velocity and to a more familiar customer. */
module Monotonicity {
  import opened Text
  import opened Money
  import opened Models
  import opened DecisionPolicy
  import opened Rules
  import opened Engine

  // ---- Velocity ----

  /** The counters the rules read grow; the others are free. */
  predicate Faster(v: Velocity, v': Velocity) {
    v.tx1 <= v'.tx1 && v.tx5 <= v'.tx5 && v.countries30 <= v'.countries30 && v.failed15 <= v'.failed15
  }

  /** To compare the catalogue on two contexts it is enough to compare the thirteen rules. */
  lemma RuleByRule(c: Context, c': Context)
    requires c.parameters == c'.parameters
    requires AtMost(HighValue(c), HighValue(c'))
    requires ParametersFor(c, HIGH_VELOCITY).enabled ==> AtMost(HighVelocity(c), HighVelocity(c'))
    requires AtMost(ForeignCountry(c), ForeignCountry(c'))
    requires AtMost(UnknownDevice(c), UnknownDevice(c'))
    requires AtMost(CardNotPresent(c), CardNotPresent(c'))
    requires AtMost(ImpossibleTravel(c), ImpossibleTravel(c'))
    requires ParametersFor(c, MERCHANT_RISK).enabled ==> AtMost(MerchantRisk(c), MerchantRisk(c'))
    requires AtMost(UnusualTime(c), UnusualTime(c'))
    requires AtMost(NewAccount(c), NewAccount(c'))
    requires AtMost(BehaviourDeviation(c), BehaviourDeviation(c'))
    requires AtMost(RapidCountryChange(c), RapidCountryChange(c'))
    requires AtMost(RepeatedDecline(c), RepeatedDecline(c'))
    requires AtMost(RoundAmount(c), RoundAmount(c'))
    ensures NoneWeaker(Catalogue(), c, c')
  {
    hide HighValue, HighVelocity, ForeignCountry, UnknownDevice, CardNotPresent, ImpossibleTravel, MerchantRisk,
         UnusualTime, NewAccount, BehaviourDeviation, RapidCountryChange, RepeatedDecline, RoundAmount;
    forall i | 0 <= i < |Catalogue()| ensures AtMost(Fires(Catalogue()[i], c), Fires(Catalogue()[i], c')) {
      assert ParametersFor(c, Catalogue()[i].code) == ParametersFor(c', Catalogue()[i].code);
    }
  }

  lemma VelocityLeavesPlace(c: Context, v': Velocity)
    ensures var c' := c.(velocity := v');
            && ForeignCountry(c') == ForeignCountry(c) && UnknownDevice(c') == UnknownDevice(c)
            && CardNotPresent(c') == CardNotPresent(c) && ImpossibleTravel(c') == ImpossibleTravel(c)
  {
    hide Fold, ContainsIgnoreCase, IsWhiteSpace, GetInt, GetDecimal, GetDouble, MakeHit;
  }

  lemma VelocityLeavesAmount(c: Context, v': Velocity)
    ensures var c' := c.(velocity := v');
            && HighValue(c') == HighValue(c) && BehaviourDeviation(c') == BehaviourDeviation(c)
            && RoundAmount(c') == RoundAmount(c)
  {
    hide Fold, ContainsIgnoreCase, IsWhiteSpace, GetInt, GetDecimal, GetDouble, MakeHit;
  }

  lemma VelocityLeavesHabits(c: Context, v': Velocity)
    ensures var c' := c.(velocity := v');
            && MerchantRisk(c') == MerchantRisk(c) && UnusualTime(c') == UnusualTime(c) && NewAccount(c') == NewAccount(c)
  {
  }

  lemma DistinctAndDeclinesGrow(c: Context, v': Velocity)
    requires Faster(c.velocity, v')
    ensures AtMost(RapidCountryChange(c), RapidCountryChange(c.(velocity := v')))
    ensures AtMost(RepeatedDecline(c), RepeatedDecline(c.(velocity := v')))
  {
  }

  lemma HighVelocityGrows(c: Context, v': Velocity)
    requires Faster(c.velocity, v') && ParametersFor(c, HIGH_VELOCITY).score <= 50
    ensures AtMost(HighVelocity(c), HighVelocity(c.(velocity := v')))
  {
  }

  lemma VelocityWeakensNothing(c: Context, v': Velocity)
    requires Faster(c.velocity, v')
    requires ParametersFor(c, HIGH_VELOCITY).enabled ==> ParametersFor(c, HIGH_VELOCITY).score <= 50
    ensures NoneWeaker(Catalogue(), c, c.(velocity := v'))
  {
    hide HighValue, HighVelocity, ForeignCountry, UnknownDevice, CardNotPresent, ImpossibleTravel, MerchantRisk,
         UnusualTime, NewAccount, BehaviourDeviation, RapidCountryChange, RepeatedDecline, RoundAmount;
    VelocityLeavesPlace(c, v');
    VelocityLeavesAmount(c, v');
    VelocityLeavesHabits(c, v');
    DistinctAndDeclinesGrow(c, v');
    if ParametersFor(c, HIGH_VELOCITY).enabled {
      HighVelocityGrows(c, v');
    }
    RuleByRule(c, c.(velocity := v'));
  }

  /** MAIN: raising velocity counters never softens the verdict of the thirteen rules. */
  lemma VelocityNeverSoftens(c: Context, v': Velocity, m: Model)
    requires Faster(c.velocity, v')
    requires ParametersFor(c, HIGH_VELOCITY).enabled ==> ParametersFor(c, HIGH_VELOCITY).score <= 50
    ensures Harmless(Evaluate(Catalogue(), c.(velocity := v'), m), m) ==>
              NoHarsher(Evaluate(Catalogue(), c, m), Evaluate(Catalogue(), c.(velocity := v'), m))
  {
    hide Evaluate;
    VelocityWeakensNothing(c, v');
    EngineMonotone(Catalogue(), c, c.(velocity := v'), m);
  }

  // ---- Familiarity ----

  predicate Grows<T(==)>(s: seq<T>, s': seq<T>) {
    forall x :: x in s ==> x in s'
  }

  /** The customer looks more familiar in `c'`: the known lists grow and the typical hours,
      once there are any, grow. Everything else is equal. */
  ghost predicate MoreFamiliar(c: Context, c': Context) {
    && c' == c.(knownDevices := c'.knownDevices, profile := c.profile.(
                  commonCountries := c'.profile.commonCountries, commonCategories := c'.profile.commonCategories,
                  commonDevices := c'.profile.commonDevices, typicalHours := c'.profile.typicalHours))
    && Grows(c.knownDevices, c'.knownDevices)
    && Grows(c.profile.commonCountries, c'.profile.commonCountries)
    && Grows(c.profile.commonCategories, c'.profile.commonCategories)
    && Grows(c.profile.commonDevices, c'.profile.commonDevices)
    && Grows(c.profile.typicalHours, c'.profile.typicalHours)
    && (c.profile.typicalHours == [] ==> c'.profile.typicalHours == [])
  }

  lemma GrowsKeepsContaining(xs: seq<string>, xs': seq<string>, x: string)
    requires Grows(xs, xs') && ContainsIgnoreCase(xs, x)
    ensures ContainsIgnoreCase(xs', x)
  {
    var i :| 0 <= i < |xs| && Fold(xs[i]) == Fold(x);
    assert xs[i] in xs';
  }

  lemma FamiliarPlace(c: Context, c': Context)
    requires MoreFamiliar(c, c')
    ensures AtMost(ForeignCountry(c'), ForeignCountry(c))
  {
    if ContainsIgnoreCase(c.profile.commonCountries, c.transaction.country) {
      GrowsKeepsContaining(c.profile.commonCountries, c'.profile.commonCountries, c.transaction.country);
    }
  }

  lemma FamiliarDevice(c: Context, c': Context)
    requires MoreFamiliar(c, c')
    ensures AtMost(UnknownDevice(c'), UnknownDevice(c))
  {
    var id := c.transaction.deviceId;
    if !Missing(id) && ContainsIgnoreCase(c.knownDevices, id.value) {
      GrowsKeepsContaining(c.knownDevices, c'.knownDevices, id.value);
    }
    if !Missing(id) && ContainsIgnoreCase(c.profile.commonDevices, id.value) {
      GrowsKeepsContaining(c.profile.commonDevices, c'.profile.commonDevices, id.value);
    }
  }

  lemma FamiliarHabits(c: Context, c': Context)
    requires MoreFamiliar(c, c')
    ensures AtMost(UnusualTime(c'), UnusualTime(c))
    ensures ParametersFor(c, MERCHANT_RISK).score >= 5 ==> AtMost(MerchantRisk(c'), MerchantRisk(c))
  {
  }

  lemma FamiliarityLeavesPayment(c: Context, c': Context)
    requires MoreFamiliar(c, c')
    ensures HighValue(c') == HighValue(c) && RoundAmount(c') == RoundAmount(c)
    ensures CardNotPresent(c') == CardNotPresent(c) && ImpossibleTravel(c') == ImpossibleTravel(c)
  {
  }

  lemma FamiliarityLeavesAccount(c: Context, c': Context)
    requires MoreFamiliar(c, c')
    ensures NewAccount(c') == NewAccount(c) && BehaviourDeviation(c') == BehaviourDeviation(c)
  {
  }

  lemma FamiliarityLeavesVelocity(c: Context, c': Context)
    requires MoreFamiliar(c, c')
    ensures HighVelocity(c') == HighVelocity(c) && RapidCountryChange(c') == RapidCountryChange(c)
    ensures RepeatedDecline(c') == RepeatedDecline(c)
  {
  }

  lemma FamiliarityStrengthensNothing(c: Context, c': Context)
    requires MoreFamiliar(c, c')
    requires ParametersFor(c, MERCHANT_RISK).enabled ==> ParametersFor(c, MERCHANT_RISK).score >= 5
    ensures NoneWeaker(Catalogue(), c', c)
  {
    hide HighValue, HighVelocity, ForeignCountry, UnknownDevice, CardNotPresent, ImpossibleTravel, MerchantRisk,
         UnusualTime, NewAccount, BehaviourDeviation, RapidCountryChange, RepeatedDecline, RoundAmount;
    FamiliarPlace(c, c');
    FamiliarDevice(c, c');
    FamiliarHabits(c, c');
    FamiliarityLeavesPayment(c, c');
    FamiliarityLeavesAccount(c, c');
    FamiliarityLeavesVelocity(c, c');
    RuleByRule(c', c);
  }

  /** MAIN: a more familiar customer is never judged more harshly. */
  lemma FamiliarityNeverHardens(c: Context, c': Context, m: Model)
    requires MoreFamiliar(c, c')
    requires ParametersFor(c, MERCHANT_RISK).enabled ==> ParametersFor(c, MERCHANT_RISK).score >= 5
    ensures Harmless(Evaluate(Catalogue(), c, m), m) ==>
              NoHarsher(Evaluate(Catalogue(), c', m), Evaluate(Catalogue(), c, m))
  {
    hide Evaluate;
    FamiliarityStrengthensNothing(c, c');
    EngineMonotone(Catalogue(), c', c, m);
  }

  // ---- The side conditions are exact ----

  const ZERO := Money(0.0, "GBP")
  const STILL := Velocity(0, 0, 0, ZERO, ZERO, ZERO, 0, 0, 0)
  const NO_MODEL := Model(0, 0.0)

  /** A context in which no rule scores unless `parameters` says so. */
  function Bare(parameters: map<string, Parameters>, velocity: Velocity, category: Category, known: seq<Category>): Context {
    Context(
      Transaction(ZERO, category, "GB", None, 12 * TICKS_PER_HOUR, true, POS, Some("D")),
      Profile("GB", 0.0, 0.0, [], known, ["D"], [], 0, 0),
      velocity, ["D"], [], parameters, 100 * HOURS_PER_DAY * TICKS_PER_HOUR, Geography((_, _) => None, (_, _) => 0.0))
  }

  /** If only rule `i` can score then its score is the raw score. */
  lemma {:induction false} OnlyScorer(rules: seq<Rule>, c: Context, i: nat)
    requires i < |rules|
    requires forall k :: 0 <= k < |rules| && k != i ==> !Fires(rules[k], c).Fault? && Score(Fires(rules[k], c)) == 0
    requires !Fires(rules[i], c).Fault?
    ensures RawScore(Triggered(rules, c)) == Score(Fires(rules[i], c))
    ensures Fault !in Triggered(rules, c)
  {
    hide Triggered, RawScore, Codes, Fires;
    var n := |rules| - 1;
    CodesSnoc(rules, c);
    assert forall k :: 0 <= k < n ==> rules[..n][k] == rules[k];
    if i < n {
      OnlyScorer(rules[..n], c, i);
    } else {
      NoScorer(rules[..n], c);
    }
  }

  lemma {:induction false} NoScorer(rules: seq<Rule>, c: Context)
    requires forall k :: 0 <= k < |rules| ==> !Fires(rules[k], c).Fault? && Score(Fires(rules[k], c)) == 0
    ensures RawScore(Triggered(rules, c)) == 0 && Fault !in Triggered(rules, c)
  {
    if rules != [] {
      hide Triggered, RawScore, Codes, Fires;
      CodesSnoc(rules, c);
      NoScorer(rules[..|rules| - 1], c);
    }
  }

  function Only(code: string, score: Int32): map<string, Parameters> {
    map[code := Parameters(code, true, score, map[], map[], map[])]
  }

  lemma BareIsQuiet(code: string, score: Int32, v: Velocity, category: Category, known: seq<Category>)
    requires code == HIGH_VELOCITY || code == MERCHANT_RISK
    requires v.countries30 == 0 && v.failed15 == 0
    ensures var c := Bare(Only(code, score), v, category, known);
            && HighValue(c) == ForeignCountry(c) == UnknownDevice(c) == CardNotPresent(c) == ImpossibleTravel(c) == Quiet
            && UnusualTime(c) == NewAccount(c) == BehaviourDeviation(c) == RapidCountryChange(c) == Quiet
            && RepeatedDecline(c) == RoundAmount(c) == Quiet
  {
    var c := Bare(Only(code, score), v, category, known);
    assert Fold(c.knownDevices[0]) == Fold("D");
  }

  /** With only the velocity or the merchant rule configured, the raw score is that rule's. */
  lemma BareScore(code: string, score: Int32, v: Velocity, category: Category, known: seq<Category>)
    requires code == HIGH_VELOCITY || code == MERCHANT_RISK
    requires v.countries30 == 0 && v.failed15 == 0
    requires var c := Bare(Only(code, score), v, category, known);
             if code == HIGH_VELOCITY then HighVelocity(c).Hit? && MerchantRisk(c).Quiet?
             else MerchantRisk(c).Hit? && HighVelocity(c).Quiet?
    ensures var c := Bare(Only(code, score), v, category, known);
            var hit := if code == HIGH_VELOCITY then HighVelocity(c) else MerchantRisk(c);
            && RawScore(Triggered(Catalogue(), c)) == hit.score
            && Fault !in Triggered(Catalogue(), c)
  {
    hide HighValue, HighVelocity, ForeignCountry, UnknownDevice, CardNotPresent, ImpossibleTravel, MerchantRisk,
         UnusualTime, NewAccount, BehaviourDeviation, RapidCountryChange, RepeatedDecline, RoundAmount;
    var c := Bare(Only(code, score), v, category, known);
    BareIsQuiet(code, score, v, category, known);
    var i := if code == HIGH_VELOCITY then 1 else 6;
    forall k | 0 <= k < |Catalogue()| && k != i ensures Fires(Catalogue()[k], c).Quiet? {}
    OnlyScorer(Catalogue(), c, i);
  }

  ghost predicate VelocitySafe(score: Int32) {
    forall c: Context, v': Velocity :: SoftensNot(score, c, v')
  }

  ghost predicate SoftensNot(score: Int32, c: Context, v': Velocity) {
    ParametersFor(c, HIGH_VELOCITY).enabled && ParametersFor(c, HIGH_VELOCITY).score == score && Faster(c.velocity, v') ==>
      NoHarsher(Evaluate(Catalogue(), c, NO_MODEL), Evaluate(Catalogue(), c.(velocity := v'), NO_MODEL))
  }

  /** MAIN: with the HIGH_VELOCITY score as the only thing known of an enabled rule, velocity is safe
      for every context exactly when that score is at most 50. */
  lemma VelocitySafeIff(score: Int32)
    ensures VelocitySafe(score) <==> score <= 50
  {
    if score <= 50 {
      forall c: Context, v': Velocity ensures SoftensNot(score, c, v') {
        if ParametersFor(c, HIGH_VELOCITY).enabled && ParametersFor(c, HIGH_VELOCITY).score == score && Faster(c.velocity, v') {
          VelocityNeverSoftens(c, v', NO_MODEL);
        }
      }
    } else {
      var slow := Bare(Only(HIGH_VELOCITY, score), STILL.(tx5 := 5), Grocery, []);
      var v' := STILL.(tx5 := 10);
      var fast := slow.(velocity := v');
      BareScore(HIGH_VELOCITY, score, slow.velocity, Grocery, []);
      BareScore(HIGH_VELOCITY, score, v', Grocery, []);
      assert !SoftensNot(score, slow, v');
    }
  }

  ghost predicate FamiliaritySafe(score: Int32) {
    forall c: Context, c': Context :: HardensNot(score, c, c')
  }

  ghost predicate HardensNot(score: Int32, c: Context, c': Context) {
    ParametersFor(c, MERCHANT_RISK).enabled && ParametersFor(c, MERCHANT_RISK).score == score && MoreFamiliar(c, c') ==>
      NoHarsher(Evaluate(Catalogue(), c', NO_MODEL), Evaluate(Catalogue(), c, NO_MODEL))
  }

  /** MAIN: familiarity is safe for every context exactly when the MERCHANT_RISK score is at least 5. */
  lemma FamiliaritySafeIff(score: Int32)
    ensures FamiliaritySafe(score) <==> score >= 5
  {
    if score >= 5 {
      forall c: Context, c': Context ensures HardensNot(score, c, c') {
        if ParametersFor(c, MERCHANT_RISK).enabled && ParametersFor(c, MERCHANT_RISK).score == score && MoreFamiliar(c, c') {
          FamiliarityNeverHardens(c, c', NO_MODEL);
        }
      }
    } else {
      var strange := Bare(Only(MERCHANT_RISK, score), STILL, Crypto, []);
      var usual := Bare(Only(MERCHANT_RISK, score), STILL, Crypto, [Crypto]);
      BareScore(MERCHANT_RISK, score, STILL, Crypto, []);
      BareScore(MERCHANT_RISK, score, STILL, Crypto, [Crypto]);
      assert MoreFamiliar(strange, usual);
      assert !HardensNot(score, strange, usual);
    }
  }
}
