/** The deterministic engine: run the enabled rules, sum, combine with the model, cap, decide. */
module Engine {
  import opened Text
  import opened Contracts
  import opened DecisionPolicy
  import opened Rules

  datatype Model = Model(score: Int32, confidence: real)

  datatype Evaluation =
    | Failed
    | Evaluated(raw: int, verdict: Verdict, triggered: seq<Result>, evidence: map<string, Value>)

  /** What one rule contributes: a disabled rule is never asked. */
  function Fires(r: Rule, c: Context): Result {
    if ParametersFor(c, r.code).enabled then r.evaluate(c) else Quiet
  }

  function Triggered(rules: seq<Rule>, c: Context): seq<Result> {
    if rules == [] then []
    else
      var before := Triggered(rules[..|rules| - 1], c);
      var last := Fires(rules[|rules| - 1], c);
      if last.Quiet? then before else before + [last]
  }

  function Score(r: Result): nat {
    if r.Hit? then r.score else 0
  }

  function RawScore(results: seq<Result>): nat {
    if results == [] then 0 else RawScore(results[..|results| - 1]) + Score(results[|results| - 1])
  }

  function Codes(results: seq<Result>): set<string> {
    set i | 0 <= i < |results| && results[i].Hit? :: results[i].code
  }

  function RoundHalfEven(x: real): int {
    var low := x.Floor;
    var rest := x - low as real;
    if rest < 0.5 || (rest == 0.5 && low % 2 == 0) then low else low + 1
  }

  predicate Contributes(m: Model) {
    m.confidence >= 0.6 && m.score > 0
  }

  /** The addition is unchecked. */
  function Combine(raw: Int32, m: Model): Int32 {
    if !Contributes(m) then raw
    else
      var points := RoundHalfEven(m.score as real * 0.15);
      Wrap32(raw + if points < 15 then points else 15)
  }

  function Key(code: string, key: string): string {
    code + ['.'] + key
  }

  /** Evidence of one rule under its prefixed keys. */
  function Prefixed(code: string, evidence: map<string, Value>): map<string, Value> {
    KeysInjective(code);
    map k | k in evidence :: Key(code, k) := evidence[k]
  }

  lemma KeysInjective(code: string)
    ensures forall k, k' :: Key(code, k) == Key(code, k') ==> k == k'
  {
    forall k, k' | Key(code, k) == Key(code, k') ensures k == k' {
      assert k == Key(code, k)[|code| + 1..] && k' == Key(code, k')[|code| + 1..];
    }
  }

  function MergeEvidence(results: seq<Result>): map<string, Value> {
    if results == [] then map[]
    else
      var before := MergeEvidence(results[..|results| - 1]);
      var last := results[|results| - 1];
      if last.Hit? then before + Prefixed(last.code, last.evidence) else before
  }

  /** The keys "model.score" and "model.confidence". */
  const MODEL_SCORE := Key("model", "score")
  const MODEL_CONFIDENCE := Key("model", "confidence")

  function ModelEvidence(m: Model): map<string, Value> {
    if m.score > 0 then map[MODEL_SCORE := Num(m.score), MODEL_CONFIDENCE := Dec(m.confidence)] else map[]
  }

  /** The whole evaluation: it fails where a rule throws or the checked sum overflows. */
  function Evaluate(rules: seq<Rule>, c: Context, m: Model): Evaluation {
    var results := Triggered(rules, c);
    var raw := RawScore(results);
    if Fault in results || raw > INT32_MAX then Failed
    else Evaluated(raw, Judge(Combine(raw, m), Codes(results)), results, MergeEvidence(results) + ModelEvidence(m))
  }

  /** `EvaluateAsync` */
  method EvaluateAsync(rules: seq<Rule>, c: Context, m: Model) returns (e: Evaluation)
    ensures e == Evaluate(rules, c, m)
  {
    var failed, results := RunRules(rules, c);
    if failed {
      return Failed;
    }
    var raw := SumScores(results);
    if raw > INT32_MAX {
      return Failed;
    }
    var evidence := CollectEvidence(results);
    if m.score > 0 {
      evidence := evidence[MODEL_SCORE := Num(m.score)][MODEL_CONFIDENCE := Dec(m.confidence)];
    }
    assert evidence == MergeEvidence(results) + ModelEvidence(m);
    e := Evaluated(raw, Judge(Combine(raw, m), Codes(results)), results, evidence);
  }

  /** The first loop of `EvaluateAsync`; a rule that throws ends it. */
  method RunRules(rules: seq<Rule>, c: Context) returns (failed: bool, results: seq<Result>)
    ensures failed <==> Fault in Triggered(rules, c)
    ensures !failed ==> results == Triggered(rules, c)
  {
    results := [];
    for i := 0 to |rules|
      invariant results == Triggered(rules[..i], c)
      invariant Fault !in results
    {
      assert rules[..i + 1][..i] == rules[..i];
      if ParametersFor(c, rules[i].code).enabled {
        var result := rules[i].evaluate(c);
        if result.Fault? {
          TriggeredKeepsFault(rules, c, i);
          return true, results;
        }
        if !result.Quiet? {
          results := results + [result];
        }
      }
    }
    assert rules[..|rules|] == rules;
    failed := false;
  }

  method SumScores(results: seq<Result>) returns (raw: nat)
    ensures raw == RawScore(results)
  {
    raw := 0;
    for i := 0 to |results|
      invariant raw == RawScore(results[..i])
    {
      assert results[..i + 1][..i] == results[..i];
      raw := raw + Score(results[i]);
    }
    assert results[..|results|] == results;
  }

  method CollectEvidence(results: seq<Result>) returns (evidence: map<string, Value>)
    ensures evidence == MergeEvidence(results)
  {
    evidence := map[];
    for i := 0 to |results|
      invariant evidence == MergeEvidence(results[..i])
    {
      assert results[..i + 1][..i] == results[..i];
      if results[i].Hit? {
        evidence := AddEvidence(evidence, results[i].code, results[i].evidence);
      }
    }
    assert results[..|results|] == results;
  }

  /** The inner loop over one rule's dictionary, in whatever order it enumerates. */
  method AddEvidence(evidence: map<string, Value>, code: string, more: map<string, Value>)
    returns (merged: map<string, Value>)
    ensures merged == evidence + Prefixed(code, more)
  {
    merged := evidence;
    var left := more.Keys;
    ghost var added := Prefixed(code, more - left);
    assert more - left == map[] && added == map[];
    while left != {}
      invariant left <= more.Keys
      invariant added == Prefixed(code, more - left)
      invariant merged == evidence + added
      decreases left
    {
      var k :| k in left;
      PrefixedExtends(code, more, left, k);
      UpdateAfterUnion(evidence, added, Key(code, k), more[k]);
      merged := merged[Key(code, k) := more[k]];
      added := added[Key(code, k) := more[k]];
      left := left - {k};
    }
    assert more - left == more;
  }

  lemma UpdateAfterUnion(a: map<string, Value>, b: map<string, Value>, k: string, v: Value)
    ensures a + b[k := v] == (a + b)[k := v]
  {
  }

  lemma PrefixedExtends(code: string, more: map<string, Value>, left: set<string>, k: string)
    requires k in left && left <= more.Keys
    ensures Prefixed(code, more - (left - {k})) == Prefixed(code, more - left)[Key(code, k) := more[k]]
  {
    var before, after := more - left, more - (left - {k});
    assert after == before[k := more[k]];
    KeysInjective(code);
  }

  lemma {:induction false} TriggeredKeepsFault(rules: seq<Rule>, c: Context, i: nat)
    requires i < |rules| && Fires(rules[i], c).Fault?
    ensures Fault in Triggered(rules, c)
  {
    var n := |rules| - 1;
    if i < n {
      TriggeredKeepsFault(rules[..n], c, i);
    }
  }

  /** Every verdict the engine returns is one of the documented bands. */
  lemma VerdictsAreConsistent(rules: seq<Rule>, c: Context, m: Model)
    ensures Evaluate(rules, c, m).Evaluated? ==> Consistent(Evaluate(rules, c, m).verdict)
  {
    var results := Triggered(rules, c);
    if RawScore(results) <= INT32_MAX {
      JudgeIsConsistent(Combine(RawScore(results), m), Codes(results));
    }
  }

  // ---- What an evaluation says ----

  /** Some triggered rule has one of the three codes that hold a medium score for review. */
  ghost predicate NeedsReview(results: seq<Result>) {
    exists i :: 0 <= i < |results| && results[i].Hit?
      && results[i].code in {"IMPOSSIBLE_TRAVEL", "REPEATED_DECLINE", "HIGH_VELOCITY"}
  }

  /** MAIN: level and decision of an evaluation, by its score and its triggered rules. */
  lemma VerdictMeaning(rules: seq<Rule>, c: Context, m: Model)
    requires Evaluate(rules, c, m).Evaluated?
    ensures var e := Evaluate(rules, c, m);
      && 0 <= e.verdict.score <= 100
      && (e.verdict.level == Low <==> e.verdict.score <= 29)
      && (e.verdict.level == Medium <==> 30 <= e.verdict.score <= 59)
      && (e.verdict.level == High <==> 60 <= e.verdict.score <= 79)
      && (e.verdict.level == Critical <==> 80 <= e.verdict.score)
      && (e.verdict.decision == Block <==> 80 <= e.verdict.score)
      && (e.verdict.decision == Review <==>
            60 <= e.verdict.score <= 79 || (30 <= e.verdict.score <= 59 && NeedsReview(e.triggered)))
  {
    hide Judge, Combine, Triggered, RawScore, MergeEvidence;
    var results := Triggered(rules, c);
    JudgeMeaning(Combine(RawScore(results), m), Codes(results));
    CodesMeaning(results);
  }

  lemma CodesMeaning(results: seq<Result>)
    ensures "IMPOSSIBLE_TRAVEL" in Codes(results) || "REPEATED_DECLINE" in Codes(results) || "HIGH_VELOCITY" in Codes(results)
            <==> NeedsReview(results)
  {
    if i :| 0 <= i < |results| && results[i].Hit?
            && results[i].code in {"IMPOSSIBLE_TRAVEL", "REPEATED_DECLINE", "HIGH_VELOCITY"} {
      assert results[i].code in Codes(results);
    }
  }

  /** The score is the raw score plus what a confident model adds, cut to 0..100: nothing below a confidence of 0.6,
      otherwise 0.15 points for each of the model's, to the nearest even, at most fifteen. */
  lemma ScoreMeaning(rules: seq<Rule>, c: Context, m: Model) returns (points: int)
    requires Evaluate(rules, c, m).Evaluated? && Evaluate(rules, c, m).raw <= 0x7fff_ffff - 15
    ensures var e := Evaluate(rules, c, m);
      && e.verdict.score == (if e.raw + points > 100 then 100 else e.raw + points)
      && (m.confidence < 0.6 || m.score <= 0 ==> points == 0)
      && (m.confidence >= 0.6 && m.score > 0 ==> IsShare(points, m.score as real * 0.15))
  {
    hide Judge, Triggered, RawScore, MergeEvidence, Codes;
    var raw := RawScore(Triggered(rules, c));
    JudgeMeaning(Combine(raw, m), Codes(Triggered(rules, c)));
    points := Combine(raw, m) - raw;
    ShareOf(raw, m);
  }

  /** `points` is the integer nearest to `share`, the even one of two, but never more than fifteen. */
  predicate IsShare(points: int, share: real) {
    && 0 <= points <= 15
    && (points < 15 ==> points as real - 0.5 <= share <= points as real + 0.5)
    && (points < 15 && (share == points as real - 0.5 || share == points as real + 0.5) ==> points % 2 == 0)
    && (points == 15 ==> share > 14.5)
  }

  lemma ShareOf(raw: Int32, m: Model)
    requires 0 <= raw <= 0x7fff_ffff - 15
    ensures m.confidence < 0.6 || m.score <= 0 ==> Combine(raw, m) == raw
    ensures m.confidence >= 0.6 && m.score > 0 ==> IsShare(Combine(raw, m) - raw, m.score as real * 0.15)
  {
    hide RoundHalfEven;
    var share := m.score as real * 0.15;
    NearestEven(share);
    if m.score > 0 {
      assert share > 0.0;
    }
  }

  lemma NearestEven(x: real)
    ensures var n := RoundHalfEven(x);
      && n as real - 0.5 <= x <= n as real + 0.5
      && (x == n as real - 0.5 || x == n as real + 0.5 ==> n % 2 == 0)
  {
  }

  /** MAIN: no rules find nothing; one more rule is asked exactly if the ruleset does not disable it, and then its finding
      is appended and its score added. */
  lemma OneMoreRule(rules: seq<Rule>, r: Rule, c: Context)
    ensures Triggered([], c) == [] && RawScore([]) == 0
    ensures var asked := r.code in c.parameters ==> c.parameters[r.code].enabled;
            var finding := r.evaluate(c);
            && Triggered(rules + [r], c) == Triggered(rules, c) + (if asked && !finding.Quiet? then [finding] else [])
            && RawScore(Triggered(rules + [r], c)) ==
                 RawScore(Triggered(rules, c)) + if asked && finding.Hit? then finding.score else 0
  {
    CodesSnoc(rules + [r], c);
    assert (rules + [r])[..|rules|] == rules;
  }

  /** The evaluation fails exactly where an asked rule throws or the checked sum leaves 32 bits; otherwise it reports the
      triggered rules and their sum. */
  lemma EvaluationParts(rules: seq<Rule>, c: Context, m: Model)
    ensures var e := Evaluate(rules, c, m);
      && (e.Failed? <==> Fault in Triggered(rules, c) || RawScore(Triggered(rules, c)) > 0x7fff_ffff)
      && (e.Evaluated? ==> e.triggered == Triggered(rules, c) && e.raw == RawScore(Triggered(rules, c)))
  {
  }

  // ---- Monotonicity ----

  /** `a` is no stronger a finding than `b`. */
  predicate AtMost(a: Result, b: Result) {
    || a.Quiet?
    || b.Fault?
    || (a.Hit? && b.Hit? && a.code == b.code && a.score <= b.score)
  }

  /** No rule finds less in `c'` than in `c`. */
  ghost predicate NoneWeaker(rules: seq<Rule>, c: Context, c': Context) {
    forall i :: 0 <= i < |rules| ==> AtMost(Fires(rules[i], c), Fires(rules[i], c'))
  }

  lemma {:induction false} TriggeredMonotone(rules: seq<Rule>, c: Context, c': Context)
    requires NoneWeaker(rules, c, c')
    requires Fault !in Triggered(rules, c')
    ensures Fault !in Triggered(rules, c)
    ensures RawScore(Triggered(rules, c)) <= RawScore(Triggered(rules, c'))
    ensures Codes(Triggered(rules, c)) <= Codes(Triggered(rules, c'))
  {
    if rules != [] {
      var n := |rules| - 1;
      TriggeredMonotone(rules[..n], c, c');
      CodesSnoc(rules, c);
      CodesSnoc(rules, c');
    }
  }

  lemma CodesSnoc(rules: seq<Rule>, c: Context)
    requires rules != []
    ensures var before := Triggered(rules[..|rules| - 1], c);
            var last := Fires(rules[|rules| - 1], c);
            && Codes(Triggered(rules, c)) == Codes(before) + (if last.Hit? then {last.code} else {})
            && RawScore(Triggered(rules, c)) == RawScore(before) + Score(last)
            && (Fault in Triggered(rules, c) <==> Fault in before || last.Fault?)
            && Triggered(rules, c) == if last.Quiet? then before else before + [last]
  {
    var before := Triggered(rules[..|rules| - 1], c);
    var last := Fires(rules[|rules| - 1], c);
    var all := Triggered(rules, c);
    if !last.Quiet? {
      assert all[..|all| - 1] == before && all[|all| - 1] == last;
      assert forall i :: 0 <= i < |before| ==> all[i] == before[i];
      assert forall x :: x in all <==> x in before || x == last;
      forall x | x in Codes(before) ensures x in Codes(all) {
        var i :| 0 <= i < |before| && before[i].Hit? && before[i].code == x;
        assert all[i].code == x;
      }
    }
  }

  /** The verdict of `e` is no harsher than that of `e'`; failing counts as harshest. */
  predicate NoHarsher(e: Evaluation, e': Evaluation) {
    e'.Evaluated? ==>
      && e.Evaluated?
      && e.raw <= e'.raw
      && e.verdict.score <= e'.verdict.score
      && Rank(e.verdict.decision) <= Rank(e'.verdict.decision)
  }

  /** No harsher, decision by decision. */
  lemma NoHarsherMeaning(e: Evaluation, e': Evaluation)
    requires NoHarsher(e, e') && e'.Evaluated?
    ensures e.Evaluated? && e.verdict.score <= e'.verdict.score
    ensures e.verdict.decision == Block ==> e'.verdict.decision == Block
    ensures e.verdict.decision == Review ==> e'.verdict.decision in {Review, Block}
  {
  }

  /** A model that cannot push the unchecked addition over 32 bits: the no-op model always, any
      model when the raw score leaves fifteen points of room. */
  predicate Harmless(e: Evaluation, m: Model) {
    e.Evaluated? ==> !Contributes(m) || e.raw <= INT32_MAX - 15
  }

  /** If no rule's finding weakens then neither does the verdict. */
  lemma EngineMonotone(rules: seq<Rule>, c: Context, c': Context, m: Model)
    requires NoneWeaker(rules, c, c')
    ensures Harmless(Evaluate(rules, c', m), m) ==> NoHarsher(Evaluate(rules, c, m), Evaluate(rules, c', m))
  {
    if Evaluate(rules, c', m).Evaluated? && Harmless(Evaluate(rules, c', m), m) {
      TriggeredMonotone(rules, c, c');
      var raw, raw' := RawScore(Triggered(rules, c)), RawScore(Triggered(rules, c'));
      CombineMonotone(raw, raw', m);
      JudgeMonotone(Combine(raw, m), Codes(Triggered(rules, c)), Combine(raw', m), Codes(Triggered(rules, c')));
    }
  }

  lemma CombineMonotone(raw: Int32, raw': Int32, m: Model)
    requires 0 <= raw <= raw' && (!Contributes(m) || raw' <= INT32_MAX - 15)
    ensures Combine(raw, m) <= Combine(raw', m)
  {
    if Contributes(m) {
      var points := RoundHalfEven(m.score as real * 0.15);
      assert points >= 0;
    }
  }
}
