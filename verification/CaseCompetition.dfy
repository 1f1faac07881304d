/** Two consumer groups compete for each decision event: exactly when a decision can still open its case. */
module CaseCompetition {
  import opened Text
  import opened Contracts
  import opened DecisionPolicy
  import opened Delivery
  import opened CaseLineage
  import opened LostAnnouncements
  import PartitionHazard
  import O = Outbox

  /** Every decision event about the transaction of `d` is `d`, and nobody will enqueue another. */
  ghost predicate DecidedOnce(s: State, d: DecisionEvent) {
    && d.transactionId in s.decisions
    && (forall k, d' :: PartitionHazard.DecisionRow(s, k, d') && d'.transactionId == d.transactionId ==> d' == d)
    && (forall w :: PastDecision(At(s, w), d.transactionId))
  }

  predicate PastDecision(worker: Worker, t: string) {
    !Deciding(worker, t) && (Announcing(worker, t) ==> worker.sent >= 2)
  }

  lemma PastDecisionStep(s: State, step: Step, w: nat, t: string)
    requires t in s.decisions && Enabled(s, step) && PastDecision(At(s, w), t)
    ensures PastDecision(At(Apply(s, step), w), t)
  {
    hide O.Apply, O.Enabled, Trim, PayloadFor, Consistent, NeedsAnalyst, PartitionOf;
  }

  /** A row that a step adds about a decided transaction is not a decision event. */
  lemma NewRow(s: State, step: Step, d: DecisionEvent, k: nat, d': DecisionEvent)
    requires DecidedOnce(s, d) && Enabled(s, step)
    requires PartitionHazard.DecisionRow(Apply(s, step), k, d') && d'.transactionId == d.transactionId
    ensures d' == d
  {
    hide Trim, Consistent, PartitionOf;
    if step.EnqueueNext? || step.EnqueueProfile? {
      assert PastDecision(At(s, step.w), d.transactionId);
    } else {
      DispatchKeepsRows(s, step);
    }
    assert k < |s.outbox.rows| ==> PartitionHazard.DecisionRow(s, k, d');
  }

  lemma DecidedStep(s: State, step: Step, d: DecisionEvent)
    requires DecidedOnce(s, d) && Enabled(s, step)
    ensures DecidedOnce(Apply(s, step), d)
  {
    hide Apply, Enabled, PastDecision, PartitionHazard.DecisionRow;
    DecisionsStay(s, step);
    forall k, d' | PartitionHazard.DecisionRow(Apply(s, step), k, d') && d'.transactionId == d.transactionId
      ensures d' == d
    {
      NewRow(s, step, d, k, d');
    }
    forall w ensures PastDecision(At(Apply(s, step), w), d.transactionId) {
      PastDecisionStep(s, step, w, d.transactionId);
    }
  }

  /** In an orderly state a published decision is the only one of its transaction, for good. */
  lemma PublishedIsDecided(s: State, d: DecisionEvent)
    requires Orderly(s) && Published(s, d)
    ensures DecidedOnce(s, d)
  {
    hide Shapes, Plan;
    var t := d.transactionId;
    PublishedIsStored(s, d);
    var q: nat :| InTopic(s, q, d);
    var k := s.outbox.log[q];
    forall k', d' | PartitionHazard.DecisionRow(s, k', d') && d'.transactionId == t ensures d' == d {
      OneRow(s, t, k, d, k', d');
    }
    forall w ensures PastDecision(At(s, w), t) {
      assert Placed(s, At(s, w));
      if Announcing(At(s, w), t) {
        ShapesHold(s.outbox.rows, k, t);
        PlanLength(StoredFor(At(s, w).event, At(s, w).verdict));
        assert About(s.outbox.rows[k].payload, t)[0] == DecisionShape(d.accountId, d.verdict);
        PlanBegins(StoredFor(At(s, w).event, At(s, w).verdict), At(s, w).sent, d.accountId, d.verdict);
      }
    }
  }

  lemma OneRow(s: State, t: string, k: nat, d: DecisionEvent, k': nat, d': DecisionEvent)
    requires Agreed(s) && t == d.transactionId == d'.transactionId
    requires PartitionHazard.DecisionRow(s, k, d) && PartitionHazard.DecisionRow(s, k', d')
    ensures d == d'
  {
    if k != k' {
      TwoShapes(s.outbox.rows, if k < k' then k else k', if k < k' then k' else k, t);
      assert false;
    }
  }

  /** The decision is the second planned event. */
  lemma PlanBegins(stored: Stored, n: nat, accountId: string, v: Verdict)
    requires n <= |Plan(stored)| && DecisionShape(accountId, v) in Plan(stored)[..n]
    ensures n >= 2
  {
    var i :| 0 <= i < n && Plan(stored)[..n][i] == DecisionShape(accountId, v);
    assert Plan(stored)[i] == DecisionShape(accountId, v);
  }

  // ---- Never again ----

  /** The event is claimed, and not by somebody who is still on the way to its case. */
  ghost predicate Lost(s: State, d: DecisionEvent) {
    && d.transactionId !in s.cases && d.id in s.inbox
    && forall w :: !Publishing(At(s, w), d)
  }

  lemma LostWorker(s: State, step: Step, w: nat, d: DecisionEvent)
    requires Enabled(s, step) && d.id in s.inbox && !Publishing(At(s, w), d)
    ensures !Publishing(At(Apply(s, step), w), d)
  {
    hide O.Apply, O.Enabled, Trim, PayloadFor, Planned, Consistent, NeedsAnalyst, PartitionOf;
  }

  /** Only somebody on the way to it opens a case, with the decision event of its transaction. */
  lemma NoNewCase(s: State, step: Step, d: DecisionEvent)
    requires Traced(s) && DecidedOnce(s, d) && Lost(s, d) && Enabled(s, step)
    ensures d.transactionId !in Apply(s, step).cases
  {
    hide O.Apply, O.Enabled, Trim, PayloadFor, Planned, Consistent, NeedsAnalyst, PartitionOf, Openings, CopiedFrom;
    if step.OpenCase? {
      var d' := At(s, step.w).decision;
      assert Carried(At(s, step.w)) == Some(d');
      var q: nat :| InTopic(s, q, d');
      assert PartitionHazard.DecisionRow(s, s.outbox.log[q], d');
      assert !Publishing(At(s, step.w), d);
    }
  }

  lemma {:induction false} LostForever(s: State, steps: seq<Step>, d: DecisionEvent)
    requires Traced(s) && DecidedOnce(s, d) && Lost(s, d) && ValidRun(s, steps)
    ensures d.transactionId !in Run(s, steps).cases
    decreases |steps|
  {
    hide Apply, Enabled, Traced, DecidedOnce, Publishing;
    if steps != [] {
      var s' := Apply(s, steps[0]);
      TablesGrow(s, steps[0]);
      forall w ensures !Publishing(At(s', w), d) {
        LostWorker(s, steps[0], w, d);
      }
      NoNewCase(s, steps[0], d);
      TracedStep(s, steps[0]);
      DecidedStep(s, steps[0], d);
      LostForever(s', steps[1..], d);
    }
  }

  // ---- Still possible ----

  lemma OpenFromOpening(s: State, w: nat, d: DecisionEvent) returns (steps: seq<Step>)
    requires At(s, w) == Opening(d)
    ensures ValidRun(s, steps) && d.transactionId in Run(s, steps).cases
  {
    var s' := Apply(s, OpenCase(w));
    RunOfNothing(s');
    RunCons(s, OpenCase(w), []);
    steps := [OpenCase(w)] + [];
  }

  lemma OpenFromClaim(s: State, w: nat, d: DecisionEvent) returns (steps: seq<Step>)
    requires At(s, w) == Entered(PublishJob(d)) && NeedsAnalyst(d.verdict.decision)
    ensures ValidRun(s, steps) && d.transactionId in Run(s, steps).cases
  {
    hide Run, ValidRun;
    if d.transactionId in s.cases {
      RunOfNothing(s);
      return [];
    }
    var rest := OpenFromOpening(Apply(s, CheckCase(w)), w, d);
    RunCons(s, CheckCase(w), rest);
    steps := [CheckCase(w)] + rest;
  }

  /** A worker that is free, or freed by a crash, fetches and claims an unclaimed event. */
  lemma OpenFromTopic(s: State, d: DecisionEvent) returns (steps: seq<Step>)
    requires Published(s, d) && d.id !in s.inbox && NeedsAnalyst(d.verdict.decision)
    ensures ValidRun(s, steps) && d.transactionId in Run(s, steps).cases
  {
    hide Run, ValidRun, O.Apply, O.Enabled;
    var q: nat :| InTopic(s, q, d);
    var s1 := Apply(s, Crash(0));
    assert InTopic(s1, q, d);
    var s2 := Apply(s1, FetchDecision(0, q, PublishJob(d)));
    var s3 := Apply(s2, Claim(0));
    var rest := OpenFromClaim(s3, 0, d);
    RunCons(s2, Claim(0), rest);
    RunCons(s1, FetchDecision(0, q, PublishJob(d)), [Claim(0)] + rest);
    RunCons(s, Crash(0), [FetchDecision(0, q, PublishJob(d))] + ([Claim(0)] + rest));
    steps := [Crash(0)] + ([FetchDecision(0, q, PublishJob(d))] + ([Claim(0)] + rest));
  }

  ghost predicate CanOpen(s: State, d: DecisionEvent) {
    exists steps :: ValidRun(s, steps) && d.transactionId in Run(s, steps).cases
  }

  /** MAIN: a published Review or Block decision has its case in some continuation if and only if the case exists,
      the event is unclaimed, or the publisher group has claimed it and is still on the way. */
  lemma CaseOpensIff(s: State, d: DecisionEvent)
    requires Orderly(s) && Traced(s) && Published(s, d) && NeedsAnalyst(d.verdict.decision)
    ensures CanOpen(s, d) <==>
            d.transactionId in s.cases || d.id !in s.inbox || exists w :: Publishing(At(s, w), d)
  {
    hide Run, ValidRun, Orderly, Traced;
    var steps: seq<Step>;
    if d.transactionId in s.cases {
      RunOfNothing(s);
      assert CanOpen(s, d);
    } else if d.id !in s.inbox {
      steps := OpenFromTopic(s, d);
    } else if w :| Publishing(At(s, w), d) {
      if At(s, w).Opening? {
        steps := OpenFromOpening(s, w, d);
      } else {
        steps := OpenFromClaim(s, w, d);
      }
    } else {
      PublishedIsDecided(s, d);
      forall steps | ValidRun(s, steps) ensures d.transactionId !in Run(s, steps).cases {
        LostForever(s, steps, d);
      }
    }
  }

  // ---- The input that shows it fails ----

  /** The decision is stored and published, and the event is still unclaimed. */
  lemma UpToPublished(partitionOf: string -> nat, e: RawEvent, v: Verdict)
    returns (steps: seq<Step>, s: State, d: DecisionEvent)
    requires e.valid && Consistent(v) && NeedsAnalyst(v.decision)
    ensures var start := PartitionHazard.Start(partitionOf, [e]);
            ValidRun(start, steps) && PartitionHazard.NoProduce(steps) && s == Run(start, steps)
    ensures d == DecisionEvent(e.id + 2, TransactionOf(e), Trim(e.accountId), v)
    ensures s.decisions == map[TransactionOf(e) := StoredFor(e, v)]
    ensures s.cases == map[] && InTopic(s, 1, d) && s.inbox.Keys == {e.id}
    ensures s.workers == map[0 := Queueing(e, v, 2)]
  {
    hide Run, ValidRun, PartitionHazard.NoProduce, CalmRun, Trim, Consistent, O.Apply, O.Enabled;
    var start := PartitionHazard.Start(partitionOf, [e]);
    steps, s := Announced(partitionOf, e, v);
    d := DecisionEvent(e.id + 2, TransactionOf(e), Trim(e.accountId), v);
    var o0 := s.outbox;
    FirstBatch(o0);
    steps, s := PartitionHazard.Then(start, steps, Dispatch(O.Dequeue(0, [0, 1])));
    steps, s := PartitionHazard.Then(start, steps, Dispatch(O.Publish(0)));
    steps, s := PartitionHazard.Then(start, steps, Dispatch(O.Publish(0)));
  }

  lemma FirstBatch(o: O.State)
    requires |o.rows| == 2 && o.rows[0].createdAt <= o.rows[1].createdAt
    requires o.published == {} && o.log == [] && o.dispatchers == map[]
    ensures O.Enabled(o, O.Dequeue(0, [0, 1]))
    ensures var o1 := O.Apply(o, O.Dequeue(0, [0, 1]));
            && O.Enabled(o1, O.Publish(0))
            && O.Enabled(O.Apply(o1, O.Publish(0)), O.Publish(0))
            && O.Apply(O.Apply(o1, O.Publish(0)), O.Publish(0)).rows == o.rows
            && O.Apply(O.Apply(o1, O.Publish(0)), O.Publish(0)).log == [0, 1]
  {
    var batch: seq<nat> := [0, 1];
    assert forall k: nat :: O.Unpublished(o, k) ==> k == batch[0] || k == batch[1];
    assert O.IsBatch(o, batch);
  }

  lemma Announced(partitionOf: string -> nat, e: RawEvent, v: Verdict) returns (steps: seq<Step>, s: State)
    requires e.valid && Consistent(v) && NeedsAnalyst(v.decision)
    ensures var start := PartitionHazard.Start(partitionOf, [e]);
            ValidRun(start, steps) && PartitionHazard.NoProduce(steps) && s == Run(start, steps)
    ensures s.decisions == map[TransactionOf(e) := StoredFor(e, v)]
    ensures s.cases == map[] && s.inbox.Keys == {e.id}
    ensures s.workers == map[0 := Queueing(e, v, 2)]
    ensures s.outbox == O.EMPTY.(rows := [
              OutboxRow(Validated(e.id + 1, e), 0),
              OutboxRow(Decision(DecisionEvent(e.id + 2, TransactionOf(e), Trim(e.accountId), v)), 1)])
  {
    hide Run, ValidRun, PartitionHazard.NoProduce, CalmRun, O.Apply, O.Enabled, Trim, Consistent;
    var start := PartitionHazard.Start(partitionOf, [e]);
    steps, s := UpToScoring(partitionOf, e);
    steps, s := PartitionHazard.Then(start, steps, Evaluate(0, v));
    steps, s := PartitionHazard.Then(start, steps, Save(0));
    steps, s := PartitionHazard.Then(start, steps, EnqueueNext(0, e.id + 1, 0));
    steps, s := PartitionHazard.Then(start, steps, EnqueueNext(0, e.id + 2, 1));
    assert s.workers == map[0 := Queueing(e, v, 2)];
  }

  /** MAIN: for every accepted event with a Review or Block verdict there is a run without a crash in which the
      decision is stored and published, the profile group claims its event, and no continuation opens a case. */
  lemma ProfileGroupWins(partitionOf: string -> nat, e: RawEvent, v: Verdict)
    returns (steps: seq<Step>, d: DecisionEvent)
    requires e.valid && Consistent(v) && NeedsAnalyst(v.decision)
    ensures var start := PartitionHazard.Start(partitionOf, [e]);
            && ValidRun(start, steps)
            && var s := Run(start, steps);
               && s.decisions == map[TransactionOf(e) := StoredFor(e, v)]
               && d.transactionId == TransactionOf(e) && d.verdict == v && Published(s, d)
               && Entrance(d.id, ProfileProcessor) in s.entered
               && !CanOpen(s, d)
  {
    hide Run, ValidRun, PartitionHazard.NoProduce, CalmRun, O.Apply, O.Enabled, Trim, Orderly, Traced, CanOpen, Consistent;
    var start := PartitionHazard.Start(partitionOf, [e]);
    var s;
    steps, s, d := UpToPublished(partitionOf, e, v);
    steps, s := PartitionHazard.Then(start, steps, FetchDecision(1, 1, ProfileJob(d)));
    steps, s := PartitionHazard.Then(start, steps, Claim(1));
    assert forall w :: !Publishing(At(s, w), d);
    assert s.entered[|s.entered| - 1] == Entrance(d.id, ProfileProcessor);
    OneEventRun(partitionOf, e, steps);
    assert InTopic(s, 1, d);
    CaseOpensIff(s, d);
  }

  /** Every run over a single event is orderly and traced. */
  lemma OneEventRun(partitionOf: string -> nat, e: RawEvent, steps: seq<Step>)
    requires ValidRun(PartitionHazard.Start(partitionOf, [e]), steps) && PartitionHazard.NoProduce(steps)
    ensures var s := Run(PartitionHazard.Start(partitionOf, [e]), steps);
            Orderly(s) && Traced(s)
  {
    hide Orderly, Claimed, Owned, Run, ValidRun, SerialRun;
    var start := PartitionHazard.Start(partitionOf, [e]);
    PartitionHazard.StartIsFine(partitionOf, [e]);
    PartitionHazard.RawFixed(start, steps);
    OneEventIsSerial(start, steps);
    DecisionsAgree(start, steps);
    TracedRun(start, steps);
  }
}
