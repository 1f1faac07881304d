/** Score bands, the cap, and the decision table. */
module DecisionPolicy {
  import opened Contracts

  const MAX_SCORE := 100

  const IMPOSSIBLE_TRAVEL := "IMPOSSIBLE_TRAVEL"
  const REPEATED_DECLINE := "REPEATED_DECLINE"
  const HIGH_VELOCITY := "HIGH_VELOCITY"

  function LevelFor(score: int): RiskLevel {
    if score <= 29 then Low
    else if score <= 59 then Medium
    else if score <= 79 then High
    else Critical
  }

  function Cap(rawScore: int): int {
    if rawScore < 0 then 0 else if rawScore > MAX_SCORE then MAX_SCORE else rawScore
  }

  function DecideMedium(codes: set<string>): RiskDecision {
    if IMPOSSIBLE_TRAVEL in codes || REPEATED_DECLINE in codes || HIGH_VELOCITY in codes then Review else Approve
  }

  function Decide(level: RiskLevel, codes: set<string>): RiskDecision {
    match level
    case Low => Approve
    case Medium => DecideMedium(codes)
    case High => Review
    case Critical => Block
  }

  function Rank(decision: RiskDecision): nat {
    match decision
    case Approve => 0
    case Review => 1
    case Block => 2
  }

  /** The verdict for a combined score and the codes of the triggered rules. */
  function Judge(combined: int, codes: set<string>): Verdict {
    var capped := Cap(combined);
    Verdict(capped, LevelFor(capped), Decide(LevelFor(capped), codes))
  }

  /** What every verdict of the engine satisfies, whatever rules ran. */
  predicate Consistent(v: Verdict) {
    && 0 <= v.score <= MAX_SCORE
    && v.level == LevelFor(v.score)
    && (v.decision == Block <==> v.score >= 80)
    && (v.score >= 60 ==> v.decision != Approve)
    && (NeedsAnalyst(v.decision) ==> v.score >= 30)
  }

  /** The bands and the decision table, score by score. */
  lemma JudgeMeaning(combined: int, codes: set<string>)
    ensures var v := Judge(combined, codes);
      && v.score == (if combined < 0 then 0 else if combined > 100 then 100 else combined)
      && (v.level == Low <==> v.score <= 29)
      && (v.level == Medium <==> 30 <= v.score <= 59)
      && (v.level == High <==> 60 <= v.score <= 79)
      && (v.level == Critical <==> 80 <= v.score)
      && (v.decision == Block <==> 80 <= v.score)
      && (v.decision == Review <==>
            || 60 <= v.score <= 79
            || (30 <= v.score <= 59
                && ("IMPOSSIBLE_TRAVEL" in codes || "REPEATED_DECLINE" in codes || "HIGH_VELOCITY" in codes)))
  {
  }

  lemma JudgeIsConsistent(combined: int, codes: set<string>)
    ensures Consistent(Judge(combined, codes))
  {
  }

  /** A larger score with at least the same critical codes never gives a milder verdict. */
  lemma JudgeMonotone(combined: int, codes: set<string>, combined': int, codes': set<string>)
    requires combined <= combined' && codes <= codes'
    ensures Judge(combined, codes).score <= Judge(combined', codes').score
    ensures Rank(Judge(combined, codes).decision) <= Rank(Judge(combined', codes').decision)
  {
  }
}
