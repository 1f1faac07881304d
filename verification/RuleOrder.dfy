/** The engine's result does not depend on the order in which rules are registered. */
module RuleOrder {
  import opened Text
  import opened Sequences
  import opened DecisionPolicy
  import opened Rules
  import opened Engine

  /** Distinct dot-free codes, none of them the model's prefix, each rule reporting under its own. */
  ghost predicate WellCoded(rules: seq<Rule>, c: Context) {
    && (forall i, j :: 0 <= i < j < |rules| ==> rules[i].code != rules[j].code)
    && forall i :: 0 <= i < |rules| ==> OwnCode(rules[i], c)
  }

  ghost predicate OwnCode(r: Rule, c: Context) {
    '.' !in r.code && r.code != "model" && (Fires(r, c).Hit? ==> Fires(r, c).code == r.code)
  }

  /** Rule `r` reports value `v` under the merged key `x`. */
  ghost predicate Says(r: Rule, c: Context, x: string, v: Value) {
    var f := Fires(r, c);
    f.Hit? && exists k :: k in f.evidence && x == Key(f.code, k) && f.evidence[k] == v
  }

  lemma SaysSplits(r: Rule, r': Rule, c: Context, x: string, v: Value, v': Value)
    requires OwnCode(r, c) && OwnCode(r', c) && Says(r, c, x, v) && Says(r', c, x, v')
    ensures r.code == r'.code
    ensures Fires(r, c) == Fires(r', c) ==> v == v'
  {
    var f, f' := Fires(r, c), Fires(r', c);
    var k :| k in f.evidence && x == Key(f.code, k) && f.evidence[k] == v;
    var k' :| k' in f'.evidence && x == Key(f'.code, k') && f'.evidence[k'] == v';
    SplitAtFirst(f.code, k, f'.code, k', '.');
  }

  function Merged(rules: seq<Rule>, c: Context): map<string, Value> {
    MergeEvidence(Triggered(rules, c))
  }

  lemma MergedSnoc(rules: seq<Rule>, c: Context)
    requires rules != []
    ensures var last := Fires(rules[|rules| - 1], c);
            Merged(rules, c) == if last.Hit? then Merged(rules[..|rules| - 1], c) + Prefixed(last.code, last.evidence)
                                else Merged(rules[..|rules| - 1], c)
  {
    var before := Triggered(rules[..|rules| - 1], c);
    var last := Fires(rules[|rules| - 1], c);
    if !last.Quiet? {
      assert (before + [last])[..|before|] == before;
    }
  }

  /** The merged dictionary is exactly the union of what the rules say; nothing overwrites anything. */
  lemma {:induction false} EvidenceIsUnion(rules: seq<Rule>, c: Context)
    requires WellCoded(rules, c)
    ensures forall x :: x in Merged(rules, c) ==>
              exists i :: 0 <= i < |rules| && Says(rules[i], c, x, Merged(rules, c)[x])
    ensures forall i, x, v :: 0 <= i < |rules| && Says(rules[i], c, x, v) ==>
              x in Merged(rules, c) && Merged(rules, c)[x] == v
  {
    if rules != [] {
      hide Triggered, MergeEvidence, Merged, Fires, OwnCode;
      var n := |rules| - 1;
      var before, all := Merged(rules[..n], c), Merged(rules, c);
      var last := Fires(rules[n], c);
      EvidenceIsUnion(rules[..n], c);
      MergedSnoc(rules, c);
      forall x | x in all ensures exists i :: 0 <= i < |rules| && Says(rules[i], c, x, all[x]) {
        if last.Hit? && x in Prefixed(last.code, last.evidence) {
          KeysInjective(last.code);
          assert Says(rules[n], c, x, all[x]);
        } else {
          var i :| 0 <= i < n && Says(rules[..n][i], c, x, before[x]);
          assert Says(rules[i], c, x, all[x]);
        }
      }
      forall i, x, v | 0 <= i < |rules| && Says(rules[i], c, x, v) ensures x in all && all[x] == v {
        if i == n {
          KeysInjective(last.code);
        } else {
          assert Says(rules[..n][i], c, x, v);
          if last.Hit? && x in Prefixed(last.code, last.evidence) {
            assert Says(rules[n], c, x, all[x]);
            SaysSplits(rules[i], rules[n], c, x, v, all[x]);
            assert false;
          }
        }
      }
    }
  }

  ghost predicate SomeHits(rules: seq<Rule>, c: Context, code: string) {
    exists i :: 0 <= i < |rules| && Fires(rules[i], c).Hit? && Fires(rules[i], c).code == code
  }

  ghost predicate SomeFaults(rules: seq<Rule>, c: Context) {
    exists i :: 0 <= i < |rules| && Fires(rules[i], c).Fault?
  }

  lemma SomeHitsSnoc(rules: seq<Rule>, c: Context, code: string)
    requires rules != []
    ensures var n := |rules| - 1;
            SomeHits(rules, c, code) <==>
            SomeHits(rules[..n], c, code) || (Fires(rules[n], c).Hit? && Fires(rules[n], c).code == code)
  {
    hide Fires;
    var n := |rules| - 1;
    var front := rules[..n];
    if SomeHits(front, c, code) {
      var i :| 0 <= i < |front| && Fires(front[i], c).Hit? && Fires(front[i], c).code == code;
      assert rules[i] == front[i];
    }
    if SomeHits(rules, c, code) {
      var i :| 0 <= i < |rules| && Fires(rules[i], c).Hit? && Fires(rules[i], c).code == code;
      assert i < n ==> front[i] == rules[i];
    }
  }

  lemma SomeFaultsSnoc(rules: seq<Rule>, c: Context)
    requires rules != []
    ensures var n := |rules| - 1;
            SomeFaults(rules, c) <==> SomeFaults(rules[..n], c) || Fires(rules[n], c).Fault?
  {
    hide Fires;
    var n := |rules| - 1;
    var front := rules[..n];
    if SomeFaults(front, c) {
      var i :| 0 <= i < |front| && Fires(front[i], c).Fault?;
      assert rules[i] == front[i];
    }
    if SomeFaults(rules, c) {
      var i :| 0 <= i < |rules| && Fires(rules[i], c).Fault?;
      assert i < n ==> front[i] == rules[i];
    }
  }

  lemma {:induction false} CodesAre(rules: seq<Rule>, c: Context, code: string)
    ensures code in Codes(Triggered(rules, c)) <==> SomeHits(rules, c, code)
    ensures Fault in Triggered(rules, c) <==> SomeFaults(rules, c)
  {
    if rules != [] {
      hide Triggered, Codes, Fires, SomeHits, SomeFaults;
      CodesAre(rules[..|rules| - 1], c, code);
      CodesSnoc(rules, c);
      SomeHitsSnoc(rules, c, code);
      SomeFaultsSnoc(rules, c);
    }
  }

  /** Taking one rule out takes its score out, wherever it stands. */
  lemma {:induction false} RemoveRule(rules: seq<Rule>, i: nat, c: Context)
    requires i < |rules|
    ensures RawScore(Triggered(rules, c)) ==
            RawScore(Triggered(RemoveAt(rules, i), c)) + Score(Fires(rules[i], c))
    ensures Fires(rules[i], c).Quiet? ==> Triggered(rules, c) == Triggered(RemoveAt(rules, i), c)
  {
    hide Triggered, RawScore, Codes, Fires;
    var n := |rules| - 1;
    var rest := RemoveAt(rules, i);
    CodesSnoc(rules, c);
    if i == n {
      assert rest == rules[..n];
    } else {
      assert rest[..|rest| - 1] == RemoveAt(rules[..n], i);
      assert rest[|rest| - 1] == rules[n];
      CodesSnoc(rest, c);
      RemoveRule(rules[..n], i, c);
    }
  }

  lemma {:induction false} ScorePermutes(rules: seq<Rule>, rules': seq<Rule>, c: Context)
    requires multiset(rules) == multiset(rules')
    ensures RawScore(Triggered(rules, c)) == RawScore(Triggered(rules', c))
  {
    PermutationMembers(rules, rules');
    if rules != [] {
      var i := MatchLast(rules, rules');
      ScorePermutes(rules[..|rules| - 1], RemoveAt(rules', i), c);
      RemoveRule(rules', i, c);
      CodesSnoc(rules, c);
    }
  }

  lemma SameMembers(rules: seq<Rule>, rules': seq<Rule>)
    requires multiset(rules) == multiset(rules')
    ensures forall i :: 0 <= i < |rules| ==> rules[i] in rules'
  {
    PermutationMembers(rules, rules');
    assert forall i :: 0 <= i < |rules| ==> rules[i] in rules;
  }

  lemma EvidenceIncluded(rules: seq<Rule>, rules': seq<Rule>, c: Context)
    requires multiset(rules) == multiset(rules') && WellCoded(rules, c) && WellCoded(rules', c)
    ensures forall x :: x in Merged(rules, c) ==> x in Merged(rules', c) && Merged(rules', c)[x] == Merged(rules, c)[x]
  {
    SameMembers(rules, rules');
    EvidenceIsUnion(rules, c);
    EvidenceIsUnion(rules', c);
    forall x | x in Merged(rules, c) ensures x in Merged(rules', c) && Merged(rules', c)[x] == Merged(rules, c)[x] {
      var i :| 0 <= i < |rules| && Says(rules[i], c, x, Merged(rules, c)[x]);
      var j :| 0 <= j < |rules'| && rules'[j] == rules[i];
      assert Says(rules'[j], c, x, Merged(rules, c)[x]);
    }
  }

  lemma CodesIncluded(rules: seq<Rule>, rules': seq<Rule>, c: Context)
    requires multiset(rules) == multiset(rules')
    ensures Codes(Triggered(rules, c)) <= Codes(Triggered(rules', c))
    ensures Fault in Triggered(rules, c) ==> Fault in Triggered(rules', c)
  {
    hide Triggered, Codes, Fires;
    SameMembers(rules, rules');
    forall code | code in Codes(Triggered(rules, c)) ensures code in Codes(Triggered(rules', c)) {
      CodesAre(rules, c, code);
      CodesAre(rules', c, code);
    }
    CodesAre(rules, c, "");
    CodesAre(rules', c, "");
  }

  lemma WellCodedPermutes(rules: seq<Rule>, rules': seq<Rule>, c: Context)
    requires multiset(rules) == multiset(rules') && WellCoded(rules, c)
    ensures WellCoded(rules', c)
  {
    SameMembers(rules', rules);
    assert Distinct(rules);
    PermutationDistinct(rules, rules');
    forall i, j | 0 <= i < j < |rules'| ensures rules'[i].code != rules'[j].code {
      var a :| 0 <= a < |rules| && rules[a] == rules'[i];
      var b :| 0 <= b < |rules| && rules[b] == rules'[j];
      assert a != b;
    }
    forall i | 0 <= i < |rules'| ensures OwnCode(rules'[i], c) {
      var a :| 0 <= a < |rules| && rules[a] == rules'[i];
    }
  }

  /** MAIN: raw score, verdict and merged evidence are the same for every permutation of the rules. */
  lemma OrderIndependent(rules: seq<Rule>, rules': seq<Rule>, c: Context, m: Model)
    requires multiset(rules) == multiset(rules') && WellCoded(rules, c)
    ensures var e, e' := Evaluate(rules, c, m), Evaluate(rules', c, m);
            && (e.Failed? <==> e'.Failed?)
            && (e.Evaluated? ==> e.raw == e'.raw && e.verdict == e'.verdict && e.evidence == e'.evidence)
  {
    ScorePermutes(rules, rules', c);
    CodesIncluded(rules, rules', c);
    CodesIncluded(rules', rules, c);
    WellCodedPermutes(rules, rules', c);
    EvidenceIncluded(rules, rules', c);
    EvidenceIncluded(rules', rules, c);
    assert Merged(rules, c) == Merged(rules', c);
  }

  /** MAIN: a disabled rule behaves like an absent one. */
  lemma DisabledIsAbsent(rules: seq<Rule>, i: nat, c: Context, m: Model)
    requires i < |rules| && !ParametersFor(c, rules[i].code).enabled
    ensures Evaluate(rules, c, m) == Evaluate(RemoveAt(rules, i), c, m)
  {
    RemoveRule(rules, i, c);
  }

  /** MAIN: in a finished evaluation every finding of every rule, and the model's two entries, are
      in the evidence with their own values, and nothing else is. */
  lemma EvidenceComplete(rules: seq<Rule>, c: Context, m: Model)
    requires WellCoded(rules, c) && Evaluate(rules, c, m).Evaluated?
    ensures var evidence := Evaluate(rules, c, m).evidence;
            && (forall i, x, v :: 0 <= i < |rules| && Says(rules[i], c, x, v) ==> x in evidence && evidence[x] == v)
            && (forall x :: x in ModelEvidence(m) ==> x in evidence && evidence[x] == ModelEvidence(m)[x])
            && (forall x :: x in evidence ==>
                  x in ModelEvidence(m) || exists i :: 0 <= i < |rules| && Says(rules[i], c, x, evidence[x]))
  {
    EvidenceIsUnion(rules, c);
    forall i, x, v | 0 <= i < |rules| && Says(rules[i], c, x, v) ensures x !in ModelEvidence(m) {
      RulesNeverSayModel(rules[i], c, x, v, m);
    }
    var evidence := Evaluate(rules, c, m).evidence;
    assert evidence == Merged(rules, c) + ModelEvidence(m);
    forall x | x in evidence && x !in ModelEvidence(m)
      ensures exists i :: 0 <= i < |rules| && Says(rules[i], c, x, evidence[x])
    {
      assert evidence[x] == Merged(rules, c)[x];
    }
  }

  lemma {:induction false} TriggeredFires(rules: seq<Rule>, c: Context, r: Result)
    ensures r in Triggered(rules, c) <==> exists i :: 0 <= i < |rules| && Fires(rules[i], c) == r && !r.Quiet?
  {
    hide Fires;
    if rules != [] {
      var n := |rules| - 1;
      var front := rules[..n];
      TriggeredFires(front, c, r);
      assert forall i :: 0 <= i < n ==> front[i] == rules[i];
      if i :| 0 <= i < |front| && Fires(front[i], c) == r && !r.Quiet? {
        assert Fires(rules[i], c) == r;
      }
    }
  }

  /** MAIN: in the evidence, every finding stands under the code of its rule, a dot and its own key, and a model that
      has a score stands under its two keys. */
  lemma EvidenceKeys(rules: seq<Rule>, c: Context, m: Model)
    requires WellCoded(rules, c) && Evaluate(rules, c, m).Evaluated?
    ensures var e := Evaluate(rules, c, m);
      && (forall i, k :: 0 <= i < |e.triggered| && e.triggered[i].Hit? && k in e.triggered[i].evidence ==>
            var key := e.triggered[i].code + "." + k;
            key in e.evidence && e.evidence[key] == e.triggered[i].evidence[k])
      && (m.score > 0 ==>
            && "model.score" in e.evidence && e.evidence["model.score"] == Num(m.score)
            && "model.confidence" in e.evidence && e.evidence["model.confidence"] == Dec(m.confidence))
  {
    hide Triggered, MergeEvidence, Fires, Codes, RawScore, WellCoded;
    var e := Evaluate(rules, c, m);
    EvidenceComplete(rules, c, m);
    forall i, k | 0 <= i < |e.triggered| && e.triggered[i].Hit? && k in e.triggered[i].evidence
      ensures var key := e.triggered[i].code + "." + k;
              key in e.evidence && e.evidence[key] == e.triggered[i].evidence[k]
    {
      var f := e.triggered[i];
      TriggeredFires(rules, c, f);
      var j :| 0 <= j < |rules| && Fires(rules[j], c) == f;
      assert f.code + "." + k == Key(f.code, k);
      assert Says(rules[j], c, Key(f.code, k), f.evidence[k]);
    }
    assert MODEL_SCORE == "model.score" && MODEL_CONFIDENCE == "model.confidence";
  }

  lemma ModelKeySplits(m: Model, x: string)
    requires x in ModelEvidence(m)
    ensures IndexOf(x, '.') == 5 && x[..5] == "model"
  {
    hide IndexOf;
    FirstSeparator("model", '.', "score");
    FirstSeparator("model", '.', "confidence");
  }

  lemma RulesNeverSayModel(r: Rule, c: Context, x: string, v: Value, m: Model)
    requires OwnCode(r, c) && Says(r, c, x, v)
    ensures x !in ModelEvidence(m)
  {
    hide Fires, ModelEvidence;
    var f := Fires(r, c);
    var k :| k in f.evidence && x == Key(f.code, k) && f.evidence[k] == v;
    FirstSeparator(f.code, '.', k);
    if x in ModelEvidence(m) {
      ModelKeySplits(m, x);
      assert false;
    }
  }

  function CatalogueCodes(): seq<string> {
    [HIGH_VALUE, HIGH_VELOCITY, FOREIGN_COUNTRY, UNKNOWN_DEVICE, CARD_NOT_PRESENT, IMPOSSIBLE_TRAVEL, MERCHANT_RISK,
     UNUSUAL_TIME, NEW_ACCOUNT, BEHAVIOUR_DEVIATION, RAPID_COUNTRY_CHANGE, REPEATED_DECLINE, ROUND_AMOUNT]
  }

  lemma CatalogueCodesDistinct()
    ensures Distinct(CatalogueCodes())
    ensures forall i :: 0 <= i < 13 ==> '.' !in CatalogueCodes()[i] && CatalogueCodes()[i] != "model"
  {
    assert forall i :: 0 <= i < 13 ==> CatalogueCodes()[i][0] != 'm';
  }

  /** The thirteen rules meet the hypotheses whenever parameter sets are keyed by their own code,
      as the configuration provider keys them. */
  lemma CatalogueWellCoded(c: Context)
    requires UNKNOWN_DEVICE in c.parameters ==> c.parameters[UNKNOWN_DEVICE].ruleCode == UNKNOWN_DEVICE
    ensures WellCoded(Catalogue(), c)
  {
    CatalogueCodesDistinct();
    assert forall i :: 0 <= i < 13 ==> Catalogue()[i].code == CatalogueCodes()[i];
    forall i | 0 <= i < 13 ensures OwnCode(Catalogue()[i], c) {
      CatalogueReportsOwnCode(c, i);
    }
  }

  predicate Reports(r: Result, code: string) {
    r.Hit? ==> r.code == code
  }

  lemma PaymentRulesReport(c: Context)
    ensures Reports(HighValue(c), HIGH_VALUE) && Reports(HighVelocity(c), HIGH_VELOCITY)
    ensures Reports(CardNotPresent(c), CARD_NOT_PRESENT) && Reports(MerchantRisk(c), MERCHANT_RISK)
    ensures Reports(BehaviourDeviation(c), BEHAVIOUR_DEVIATION) && Reports(RoundAmount(c), ROUND_AMOUNT)
  {
    hide GetInt, GetDecimal, VelocityScore, MerchantScore;
  }

  lemma HabitRulesReport(c: Context)
    ensures Reports(UnusualTime(c), UNUSUAL_TIME) && Reports(NewAccount(c), NEW_ACCOUNT)
    ensures Reports(RapidCountryChange(c), RAPID_COUNTRY_CHANGE) && Reports(RepeatedDecline(c), REPEATED_DECLINE)
  {
    hide GetInt;
  }

  lemma PlaceRulesReport(c: Context)
    requires UNKNOWN_DEVICE in c.parameters ==> c.parameters[UNKNOWN_DEVICE].ruleCode == UNKNOWN_DEVICE
    ensures Reports(ForeignCountry(c), FOREIGN_COUNTRY) && Reports(UnknownDevice(c), UNKNOWN_DEVICE)
    ensures Reports(ImpossibleTravel(c), IMPOSSIBLE_TRAVEL)
  {
    hide Fold, ContainsIgnoreCase, IsWhiteSpace, GetDouble;
  }

  lemma CatalogueReportsOwnCode(c: Context, i: nat)
    requires UNKNOWN_DEVICE in c.parameters ==> c.parameters[UNKNOWN_DEVICE].ruleCode == UNKNOWN_DEVICE
    requires i < 13
    ensures Fires(Catalogue()[i], c).Hit? ==> Fires(Catalogue()[i], c).code == Catalogue()[i].code
  {
    hide HighValue, HighVelocity, ForeignCountry, UnknownDevice, CardNotPresent, ImpossibleTravel, MerchantRisk,
         UnusualTime, NewAccount, BehaviourDeviation, RapidCountryChange, RepeatedDecline, RoundAmount;
    PaymentRulesReport(c);
    HabitRulesReport(c);
    PlaceRulesReport(c);
  }
}
