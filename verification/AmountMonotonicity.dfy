/** A larger amount can lower the score: the round-amount rule stops firing. It is safe exactly when that rule is worth
    nothing. */
module AmountMonotonicity {
  import opened Text
  import opened Money
  import opened DecisionPolicy
  import opened Rules
  import opened Engine
  import opened Monotonicity

  /** The same context with another amount. */
  function WithAmount(c: Context, amount: Money): Context {
    c.(transaction := c.transaction.(amount := amount))
  }

  ghost predicate RaisingKeeps(score: Int32, c: Context, amount: Money) {
    var p := ParametersFor(c, ROUND_AMOUNT);
    p.enabled && p.score == score && c.transaction.amount.amount <= amount.amount ==>
      NoHarsher(Evaluate(Catalogue(), c, NO_MODEL), Evaluate(Catalogue(), WithAmount(c, amount), NO_MODEL))
  }

  ghost predicate AmountSafe(score: Int32) {
    forall c: Context, amount: Money :: RaisingKeeps(score, c, amount)
  }

  // ---- The other twelve rules never find less in a larger amount ----

  lemma HighValueGrows(c: Context, amount: Money)
    requires c.transaction.amount.amount <= amount.amount
    ensures AtMost(HighValue(c), HighValue(WithAmount(c, amount)))
  {
    RoundGrows(ParametersFor(c, HIGH_VALUE).score);
  }

  lemma RoundGrows(score: Int32)
    ensures RoundAwayFromZero(score as real * 1.0) == score
    ensures score >= 0 ==> RoundAwayFromZero(score as real * 1.5) >= score
    ensures score < 0 ==> RoundAwayFromZero(score as real * 1.5) <= 0
  {
    assert score as real * 1.0 == score as real;
  }

  lemma DeviationGrows(c: Context, amount: Money)
    requires c.transaction.amount.amount <= amount.amount
    ensures AtMost(BehaviourDeviation(c), BehaviourDeviation(WithAmount(c, amount)))
  {
  }

  lemma PlaceIgnoresAmount(c: Context, amount: Money)
    ensures var c' := WithAmount(c, amount);
            && ForeignCountry(c') == ForeignCountry(c) && UnknownDevice(c') == UnknownDevice(c)
            && CardNotPresent(c') == CardNotPresent(c) && ImpossibleTravel(c') == ImpossibleTravel(c)
  {
    hide Fold, ContainsIgnoreCase, IsWhiteSpace, GetInt, GetDecimal, GetDouble, MakeHit;
  }

  lemma HabitsIgnoreAmount(c: Context, amount: Money)
    ensures var c' := WithAmount(c, amount);
            && HighVelocity(c') == HighVelocity(c) && MerchantRisk(c') == MerchantRisk(c)
            && UnusualTime(c') == UnusualTime(c) && NewAccount(c') == NewAccount(c)
            && RapidCountryChange(c') == RapidCountryChange(c) && RepeatedDecline(c') == RepeatedDecline(c)
  {
    hide Fold, ContainsIgnoreCase, IsWhiteSpace, GetInt, GetDecimal, GetDouble, MakeHit;
  }

  /** All rules but the last, which is the round-amount rule. */
  function Others(): seq<Rule> {
    Catalogue()[..12]
  }

  lemma OthersGrow(c: Context, amount: Money)
    requires c.transaction.amount.amount <= amount.amount
    ensures NoneWeaker(Others(), c, WithAmount(c, amount))
  {
    hide HighValue, HighVelocity, ForeignCountry, UnknownDevice, CardNotPresent, ImpossibleTravel, MerchantRisk,
         UnusualTime, NewAccount, BehaviourDeviation, RapidCountryChange, RepeatedDecline, RoundAmount;
    HighValueGrows(c, amount);
    DeviationGrows(c, amount);
    PlaceIgnoresAmount(c, amount);
    HabitsIgnoreAmount(c, amount);
    assert forall a: Result :: AtMost(a, a);
    forall i | 0 <= i < 12 ensures AtMost(Fires(Others()[i], c), Fires(Others()[i], WithAmount(c, amount))) {
      assert ParametersFor(c, Others()[i].code) == ParametersFor(WithAmount(c, amount), Others()[i].code);
    }
  }

  // ---- A rule worth nothing ----

  /** A finding without a score and without a critical code. */
  predicate Inert(r: Result) {
    r.Quiet? ||
    (r.Hit? && r.score == 0 && r.code != IMPOSSIBLE_TRAVEL && r.code != REPEATED_DECLINE && r.code != HIGH_VELOCITY)
  }

  /** A last rule that finds nothing of weight changes neither the raw score nor the verdict. */
  lemma InertRuleIsAbsent(rules: seq<Rule>, c: Context, m: Model)
    requires rules != [] && Inert(Fires(rules[|rules| - 1], c))
    ensures var e, e' := Evaluate(rules, c, m), Evaluate(rules[..|rules| - 1], c, m);
            && (e.Evaluated? <==> e'.Evaluated?)
            && (e.Evaluated? ==> e.raw == e'.raw && e.verdict == e'.verdict)
  {
    hide Fires, Triggered, Codes, RawScore, MergeEvidence;
    CodesSnoc(rules, c);
  }

  lemma RoundAmountIsInert(c: Context)
    requires ParametersFor(c, ROUND_AMOUNT).score <= 0
    ensures Inert(Fires(Catalogue()[12], c))
  {
  }

  lemma WorthlessIsSafe(c: Context, amount: Money, m: Model)
    requires ParametersFor(c, ROUND_AMOUNT).score <= 0 && c.transaction.amount.amount <= amount.amount
    ensures var e, e' := Evaluate(Catalogue(), c, m), Evaluate(Catalogue(), WithAmount(c, amount), m);
            Harmless(e', m) ==> NoHarsher(e, e')
  {
    hide Evaluate, Inert, Catalogue;
    RoundAmountIsInert(c);
    RoundAmountIsInert(WithAmount(c, amount));
    ThirteenRules();
    InertRuleIsAbsent(Catalogue(), c, m);
    InertRuleIsAbsent(Catalogue(), WithAmount(c, amount), m);
    OthersGrow(c, amount);
    EngineMonotone(Others(), c, WithAmount(c, amount), m);
  }

  lemma ThirteenRules()
    ensures |Catalogue()| == 13
  {
  }

  // ---- The amounts that show it fails ----

  /** Nothing is configured but the round-amount rule. */
  function Spending(score: Int32, amount: real): Context {
    WithAmount(Bare(Only(ROUND_AMOUNT, score), STILL, Grocery, []), Money(amount, "GBP"))
  }

  lemma SpendingIsQuiet(score: Int32, amount: real)
    requires amount < 3000.0
    ensures var c := Spending(score, amount);
            && HighValue(c) == HighVelocity(c) == ForeignCountry(c) == UnknownDevice(c) == CardNotPresent(c) == Quiet
            && ImpossibleTravel(c) == MerchantRisk(c) == UnusualTime(c) == NewAccount(c) == Quiet
            && BehaviourDeviation(c) == RapidCountryChange(c) == RepeatedDecline(c) == Quiet
  {
    var c := Spending(score, amount);
    assert Fold(c.knownDevices[0]) == Fold("D");
  }

  lemma SpendingScore(score: Int32, amount: real)
    requires amount < 3000.0
    ensures var c := Spending(score, amount);
            && RawScore(Triggered(Catalogue(), c)) == Score(RoundAmount(c))
            && Fault !in Triggered(Catalogue(), c)
  {
    hide HighValue, HighVelocity, ForeignCountry, UnknownDevice, CardNotPresent, ImpossibleTravel, MerchantRisk,
         UnusualTime, NewAccount, BehaviourDeviation, RapidCountryChange, RepeatedDecline;
    var c := Spending(score, amount);
    SpendingIsQuiet(score, amount);
    forall k | 0 <= k < |Catalogue()| && k != 12 ensures Fires(Catalogue()[k], c).Quiet? {}
    OnlyScorer(Catalogue(), c, 12);
  }

  /** 1000.00 is round and 1001.00 is not. */
  lemma RoundThenNot(score: Int32)
    requires score > 0
    ensures Score(RoundAmount(Spending(score, 1000.0))) == score
    ensures RoundAmount(Spending(score, 1001.0)) == Quiet
  {
  }

  /** MAIN: with the ROUND_AMOUNT score as the only thing known of an enabled rule, raising the amount never lowers the
      score or the decision, in every context, exactly when that score is at most 0. */
  lemma AmountSafeIff(score: Int32)
    ensures AmountSafe(score) <==> score <= 0
  {
    hide Evaluate;
    if score <= 0 {
      forall c: Context, amount: Money ensures RaisingKeeps(score, c, amount) {
        if ParametersFor(c, ROUND_AMOUNT).score == score && c.transaction.amount.amount <= amount.amount {
          WorthlessIsSafe(c, amount, NO_MODEL);
        }
      }
    } else {
      RoundAmountMatters(score);
    }
  }

  lemma RoundAmountMatters(score: Int32)
    requires score > 0
    ensures !RaisingKeeps(score, Spending(score, 1000.0), Money(1001.0, "GBP"))
  {
    hide Catalogue, RoundAmount;
    SpendingScore(score, 1000.0);
    SpendingScore(score, 1001.0);
    RoundThenNot(score);
    assert WithAmount(Spending(score, 1000.0), Money(1001.0, "GBP")) == Spending(score, 1001.0);
  }
}
