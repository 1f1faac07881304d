/** Where fraud cases come from, and what the competition for one inbox key costs. */
module CaseLineage {
  import opened Text
  import opened Contracts
  import opened DecisionPolicy
  import opened Delivery
  import O = Outbox

  ghost predicate Published(s: State, d: DecisionEvent) {
    exists q: nat :: InTopic(s, q, d)
  }

  /** The decision event a worker of the second or third group is handling. */
  function Carried(worker: Worker): Option<DecisionEvent> {
    match worker
    case Checked(PublishJob(d)) => Some(d)
    case Checked(ProfileJob(d)) => Some(d)
    case Entered(PublishJob(d)) => Some(d)
    case Entered(ProfileJob(d)) => Some(d)
    case Opening(d) => Some(d)
    case Applied(d) => Some(d)
    case _ => None
  }

  /** The worker is past the publisher group's claim of `d`. */
  predicate Publishing(worker: Worker, d: DecisionEvent) {
    worker == Entered(PublishJob(d)) || worker == Opening(d)
  }

  /** How many rows of the history open a case for `t`. */
  function Openings(history: seq<HistoryRow>, t: string): nat {
    if history == [] then 0
    else
      var last := history[|history| - 1];
      Openings(history[..|history| - 1], t) + if last == HistoryRow(t, Open, Open) then 1 else 0
  }

  /** The case was copied from `d`, a published decision that the publisher group claimed. */
  ghost predicate CopiedFrom(s: State, t: string, d: DecisionEvent)
    requires t in s.cases
  {
    && Published(s, d) && Entrance(d.id, DecisionPublisher) in s.entered
    && d.transactionId == t && NeedsAnalyst(d.verdict.decision)
    && s.cases[t].accountId == d.accountId
    && s.cases[t].score == d.verdict.score && s.cases[t].level == d.verdict.level
  }

  ghost predicate Traced(s: State) {
    && (forall w :: Carried(At(s, w)).Some? ==> Published(s, Carried(At(s, w)).value))
    && (forall w, d :: Publishing(At(s, w), d) ==> Entrance(d.id, DecisionPublisher) in s.entered)
    && (forall w :: At(s, w).Opening? ==> NeedsAnalyst(At(s, w).decision.verdict.decision))
    && (forall t :: t in s.cases ==> exists d :: CopiedFrom(s, t, d))
    && (forall t :: Openings(s.history, t) == if t in s.cases then 1 else 0)
  }

  lemma OpeningsSnoc(history: seq<HistoryRow>, row: HistoryRow, t: string)
    ensures Openings(history + [row], t) == Openings(history, t) + if row == HistoryRow(t, Open, Open) then 1 else 0
  {
    assert (history + [row])[..|history|] == history;
  }

  /** The log and the table only grow, so what was published stays published. */
  lemma PublishedStays(s: State, step: Step, d: DecisionEvent)
    requires Enabled(s, step) && Published(s, d)
    ensures Published(Apply(s, step), d)
  {
    var s' := Apply(s, step);
    assert s.outbox.log <= s'.outbox.log && s.outbox.rows <= s'.outbox.rows;
    var q: nat :| InTopic(s, q, d);
    assert InTopic(s', q, d);
  }

  lemma EntriesStay(s: State, step: Step, e: Entrance)
    requires Enabled(s, step) && e in s.entered
    ensures e in Apply(s, step).entered
  {
    assert s.entered <= Apply(s, step).entered;
  }

  lemma CarriedStep(s: State, step: Step, w: nat)
    requires Traced(s) && Enabled(s, step)
    ensures var s' := Apply(s, step);
            && (Carried(At(s', w)).Some? ==> Published(s', Carried(At(s', w)).value))
            && (At(s', w).Opening? ==> NeedsAnalyst(At(s', w).decision.verdict.decision))
  {
    hide O.Apply, O.Enabled, TransactionOf, StoredFor, PayloadFor, Planned, Consistent, Openings, CopiedFrom;
    var s' := Apply(s, step);
    if Carried(At(s', w)).Some? {
      var d := Carried(At(s', w)).value;
      if step.FetchDecision? && step.w == w {
        assert InTopic(s, step.q, d);
      } else {
        assert Carried(At(s, w)) == Some(d);
      }
      PublishedStays(s, step, d);
    }
  }

  lemma PublishingStep(s: State, step: Step, w: nat, d: DecisionEvent)
    requires Traced(s) && Enabled(s, step) && Publishing(At(Apply(s, step), w), d)
    ensures Entrance(d.id, DecisionPublisher) in Apply(s, step).entered
  {
    hide O.Apply, O.Enabled, TransactionOf, StoredFor, PayloadFor, Planned, Consistent, Openings, CopiedFrom;
    var s' := Apply(s, step);
    if step == Claim(w) {
      assert s'.entered[|s.entered|] == Entrance(d.id, DecisionPublisher);
    } else {
      assert Publishing(At(s, w), d);
      EntriesStay(s, step, Entrance(d.id, DecisionPublisher));
    }
  }

  lemma CopyStays(s: State, step: Step, t: string, d: DecisionEvent)
    requires Enabled(s, step) && t in s.cases && CopiedFrom(s, t, d)
    ensures t in Apply(s, step).cases && CopiedFrom(Apply(s, step), t, d)
  {
    hide O.Apply, O.Enabled;
    PublishedStays(s, step, d);
    EntriesStay(s, step, Entrance(d.id, DecisionPublisher));
  }

  lemma CaseStep(s: State, step: Step, t: string)
    requires Traced(s) && Enabled(s, step) && t in Apply(s, step).cases
    ensures exists d :: CopiedFrom(Apply(s, step), t, d)
  {
    if t in s.cases {
      var d :| CopiedFrom(s, t, d);
      CopyStays(s, step, t, d);
    } else {
      NewCase(s, step, t);
    }
  }

  lemma NewCase(s: State, step: Step, t: string)
    requires Traced(s) && Enabled(s, step) && t !in s.cases && t in Apply(s, step).cases
    ensures exists d :: CopiedFrom(Apply(s, step), t, d)
  {
    hide O.Apply, O.Enabled, TransactionOf, StoredFor, PayloadFor, Planned, Consistent, Openings;
    assert step.OpenCase?;
    var d := At(s, step.w).decision;
    assert Carried(At(s, step.w)) == Some(d) && Publishing(At(s, step.w), d);
    PublishedStays(s, step, d);
    assert CopiedFrom(Apply(s, step), t, d);
  }

  lemma OpeningsStep(s: State, step: Step, t: string)
    requires Traced(s) && Enabled(s, step)
    ensures Openings(Apply(s, step).history, t) == if t in Apply(s, step).cases then 1 else 0
  {
    hide Openings, Traced, Apply, Enabled;
    HistoryStep(s, step);
    var s' := Apply(s, step);
    OpeningsCount(s, t);
    if s'.history != s.history {
      OpeningsSnoc(s.history, s'.history[|s.history|], t);
    }
  }

  lemma OpeningsCount(s: State, t: string)
    requires Traced(s)
    ensures Openings(s.history, t) == if t in s.cases then 1 else 0
  {
    hide Openings, CopiedFrom, Published, Publishing, Carried;
  }

  /** A step adds at most one history row: the opening row of a new case, or a move of an old one. */
  lemma HistoryStep(s: State, step: Step)
    requires Enabled(s, step)
    ensures var s' := Apply(s, step);
            || (s'.history == s.history && s'.cases == s.cases)
            || (exists t, row :: s'.history == s.history + [row] && HistoryAdds(s, s', t, row))
  {
    hide O.Apply, O.Enabled, TransactionOf, StoredFor, PayloadFor, Planned, Consistent;
    var s' := Apply(s, step);
    if step.AnalystMove? {
      assert HistoryAdds(s, s', step.transactionId, s'.history[|s.history|]);
    }
    if step.OpenCase? && s'.history != s.history {
      assert HistoryAdds(s, s', At(s, step.w).decision.transactionId, s'.history[|s.history|]);
    }
  }

  predicate HistoryAdds(s: State, s': State, t: string, row: HistoryRow) {
    && row.transactionId == t && t in s'.cases && s'.cases.Keys == s.cases.Keys + {t}
    && (row == HistoryRow(t, Open, Open) <==> t !in s.cases)
  }

  lemma TracedStep(s: State, step: Step)
    requires Traced(s) && Enabled(s, step)
    ensures Traced(Apply(s, step))
  {
    hide Apply, Enabled;
    var s' := Apply(s, step);
    forall w ensures (Carried(At(s', w)).Some? ==> Published(s', Carried(At(s', w)).value))
             ensures At(s', w).Opening? ==> NeedsAnalyst(At(s', w).decision.verdict.decision)
    {
      CarriedStep(s, step, w);
    }
    forall w, d | Publishing(At(s', w), d) ensures Entrance(d.id, DecisionPublisher) in s'.entered {
      PublishingStep(s, step, w, d);
    }
    forall t | t in s'.cases ensures exists d :: CopiedFrom(s', t, d) {
      CaseStep(s, step, t);
    }
    forall t ensures Openings(s'.history, t) == if t in s'.cases then 1 else 0 {
      OpeningsStep(s, step, t);
    }
  }

  lemma {:induction false} TracedRun(s: State, steps: seq<Step>)
    requires Traced(s) && ValidRun(s, steps)
    ensures Traced(Run(s, steps))
    decreases |steps|
  {
    hide Apply, Enabled, Traced;
    if steps != [] {
      TracedStep(s, steps[0]);
      TracedRun(Apply(s, steps[0]), steps[1..]);
    }
  }

  /** A published decision is the stored one. */
  lemma PublishedIsStored(s: State, d: DecisionEvent)
    requires Agreed(s) && Published(s, d)
    ensures d.transactionId in s.decisions && s.decisions[d.transactionId] == Stored(d.accountId, d.verdict)
  {
    var q: nat :| InTopic(s, q, d);
    var k := s.outbox.log[q];
    var t := d.transactionId;
    ShapesHold(s.outbox.rows, k, t);
    var shapes := Shapes(s.outbox.rows, t);
    var i :| 0 <= i < |shapes| && shapes[i] == DecisionShape(d.accountId, d.verdict);
    assert Plan(s.decisions[t])[i] == shapes[i];
  }

  /** What is claimed of a case. */
  ghost predicate Lineage(s: State, t: string)
    requires t in s.cases
  {
    var c := s.cases[t];
    && t in s.decisions
    && c.accountId == s.decisions[t].accountId
    && c.score == s.decisions[t].verdict.score && c.level == LevelFor(c.score) && c.score >= 30
    && Openings(s.history, t) == 1
    && exists d :: Published(s, d) && d.transactionId == t && s.decisions[t] == Stored(d.accountId, d.verdict)
  }

  /** MAIN: every fraud case traces through the decision topic and an outbox row to the stored decision of
      its transaction, with its score and level; it has one opening row, and its score is at least 30. */
  lemma CasesHaveLineage(s: State, steps: seq<Step>, t: string)
    requires Orderly(s) && Traced(s) && ValidRun(s, steps) && SerialRun(s, steps)
    requires t in Run(s, steps).cases
    ensures Lineage(Run(s, steps), t)
  {
    hide Run, ValidRun, SerialRun;
    DecisionsAgree(s, steps);
    TracedRun(s, steps);
    var s' := Run(s, steps);
    var d :| CopiedFrom(s', t, d);
    PublishedIsStored(s', d);
  }

  // ---- The groups compete ----

  lemma {:induction false} TwoShapes(rows: seq<OutboxRow>, k: nat, k': nat, t: string)
    requires k < k' < |rows| && About(rows[k].payload, t) != [] && About(rows[k'].payload, t) != []
    ensures exists i, j :: 0 <= i < j < |Shapes(rows, t)|
              && Shapes(rows, t)[i] == About(rows[k].payload, t)[0] && Shapes(rows, t)[j] == About(rows[k'].payload, t)[0]
  {
    var n := |rows| - 1;
    var before := Shapes(rows[..n], t);
    if k' < n {
      TwoShapes(rows[..n], k, k', t);
      var i, j :| 0 <= i < j < |before|
        && before[i] == About(rows[k].payload, t)[0] && before[j] == About(rows[k'].payload, t)[0];
      assert Shapes(rows, t)[i] == before[i] && Shapes(rows, t)[j] == before[j];
    } else {
      ShapesHold(rows[..n], k, t);
      var i :| 0 <= i < |before| && before[i] == About(rows[k].payload, t)[0];
      assert Shapes(rows, t)[i] == before[i] && Shapes(rows, t)[|before|] == About(rows[n].payload, t)[0];
    }
  }

  /** A transaction has one published decision event. */
  lemma OneDecisionEvent(s: State, d: DecisionEvent, d': DecisionEvent)
    requires Agreed(s) && Published(s, d) && Published(s, d') && d.transactionId == d'.transactionId
    ensures d == d'
  {
    var q: nat :| InTopic(s, q, d);
    var q': nat :| InTopic(s, q', d');
    var k, k' := s.outbox.log[q], s.outbox.log[q'];
    var t := d.transactionId;
    if k != k' {
      TwoShapes(s.outbox.rows, if k < k' then k else k', if k < k' then k' else k, t);
      assert false;
    }
  }

  /** MAIN: the claim is per event, not per group. Once the profile group has claimed the decision of a
      transaction, no run ever opens a case for it, whatever the decision was. */
  lemma ProfileClaimBlocksCase(s: State, steps: seq<Step>, d: DecisionEvent)
    requires Once(s) && Orderly(s) && Traced(s) && ValidRun(s, steps) && SerialRun(s, steps)
    requires Published(Run(s, steps), d) && Entrance(d.id, ProfileProcessor) in Run(s, steps).entered
    ensures d.transactionId !in Run(s, steps).cases
  {
    hide Run, ValidRun, SerialRun;
    var s' := Run(s, steps);
    EnteredAtMostOnce(s, steps);
    DecisionsAgree(s, steps);
    TracedRun(s, steps);
    if d.transactionId in s'.cases {
      var d' :| CopiedFrom(s', d.transactionId, d');
      OneDecisionEvent(s', d, d');
      assert false;
    }
  }

  /** The empty system meets every hypothesis. */
  lemma EmptyIsFine(partitionOf: string -> nat)
    ensures var s := Empty(partitionOf);
            Once(s) && Claimed(s) && Owned(s) && Orderly(s) && Traced(s) && O.Ordered(s.outbox)
  {
  }
}
