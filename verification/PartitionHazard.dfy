/** When stored and announced decisions agree: the conditions of `DecisionsAgree` are exact. */
module PartitionHazard {
  import opened Contracts
  import opened Delivery
  import O = Outbox

  /** The system with a fixed backlog of raw events. */
  function Start(partitionOf: string -> nat, raw: seq<RawEvent>): State {
    Empty(partitionOf).(raw := raw)
  }

  ghost predicate NoProduce(steps: seq<Step>) {
    forall i :: 0 <= i < |steps| ==> !steps[i].Produce?
  }

  lemma {:induction false} RawFixed(s: State, steps: seq<Step>)
    requires ValidRun(s, steps) && NoProduce(steps)
    ensures Run(s, steps).raw == s.raw && Run(s, steps).partitionOf == s.partitionOf
    decreases |steps|
  {
    if steps != [] {
      RawKept(s, steps[0]);
      RawFixed(Apply(s, steps[0]), steps[1..]);
    }
  }

  lemma RawKept(s: State, step: Step)
    requires Enabled(s, step) && !step.Produce?
    ensures Apply(s, step).raw == s.raw && Apply(s, step).partitionOf == s.partitionOf
  {
    hide O.Apply, O.Enabled, PayloadFor, Planned, NeedsAnalyst, PartitionOf, TransactionOf, StoredFor;
  }

  lemma {:induction false} CalmSnoc(s: State, steps: seq<Step>, step: Step)
    requires ValidRun(s, steps) && Enabled(Run(s, steps), step) && ValidRun(s, steps + [step])
    ensures CalmRun(s, steps + [step]) <==> CalmRun(s, steps) && Calm(Run(s, steps), step)
    decreases |steps|
  {
    hide Calm, Apply, Enabled;
    if steps == [] {
      assert (steps + [step])[1..] == [];
    } else {
      assert (steps + [step])[1..] == steps[1..] + [step];
      CalmSnoc(Apply(s, steps[0]), steps[1..], step);
    }
  }

  /** One more step of a run under construction. */
  lemma Then(s0: State, steps: seq<Step>, step: Step) returns (steps': seq<Step>, s': State)
    requires ValidRun(s0, steps) && NoProduce(steps)
    requires Enabled(Run(s0, steps), step) && !step.Produce?
    ensures ValidRun(s0, steps') && NoProduce(steps') && s' == Run(s0, steps') == Apply(Run(s0, steps), step)
    ensures CalmRun(s0, steps') <==> CalmRun(s0, steps) && Calm(Run(s0, steps), step)
  {
    hide Calm, Apply, Enabled;
    RunSnoc(s0, steps, step);
    steps' := steps + [step];
    s' := Run(s0, steps');
    CalmSnoc(s0, steps, step);
  }

  const MILD := Verdict(10, Low, Approve)
  const HARSH := Verdict(90, Critical, Block)

  /** Two events of one transaction, each claimed by its own worker; the second worker is given its partition after
      the first has fetched its record, which is a calm step where the partitions differ. */
  lemma BothClaim(partitionOf: string -> nat, raw: seq<RawEvent>, i: nat, j: nat) returns (steps: seq<Step>, s: State)
    requires i < |raw| && j < |raw| && Siblings(raw[i], raw[j])
    ensures ValidRun(Start(partitionOf, raw), steps) && NoProduce(steps) && s == Run(Start(partitionOf, raw), steps)
    ensures At(s, 0) == Entered(RawJob(raw[i])) && At(s, 1) == Entered(RawJob(raw[j]))
    ensures s.decisions == map[] && s.outbox == O.EMPTY
    ensures partitionOf(raw[i].accountId) != partitionOf(raw[j].accountId) ==> CalmRun(Start(partitionOf, raw), steps)
  {
    hide Run, ValidRun, NoProduce, CalmRun, TransactionOf, O.Apply, O.Enabled;
    var s0 := Start(partitionOf, raw);
    Nothing(s0);
    steps, s := Then(s0, [], Assign(partitionOf(raw[i].accountId), 0));
    steps, s := Then(s0, steps, FetchRaw(0, i));
    steps, s := Then(s0, steps, Assign(partitionOf(raw[j].accountId), 1));
    steps, s := Then(s0, steps, FetchRaw(1, j));
    steps, s := Then(s0, steps, Claim(0));
    steps, s := Then(s0, steps, Claim(1));
  }

  lemma Nothing(s: State)
    ensures ValidRun(s, []) && NoProduce([]) && Run(s, []) == s && CalmRun(s, [])
  {
  }

  /** Both see no decision, both score; the first save wins and the second is swallowed. */
  lemma SecondSaveLoses(partitionOf: string -> nat, raw: seq<RawEvent>, i: nat, j: nat)
    returns (steps: seq<Step>, s: State)
    requires i < |raw| && j < |raw| && Siblings(raw[i], raw[j])
    ensures ValidRun(Start(partitionOf, raw), steps) && NoProduce(steps) && s == Run(Start(partitionOf, raw), steps)
    ensures At(s, 1) == Queueing(raw[j], HARSH, 0) && s.outbox == O.EMPTY
    ensures s.decisions == map[TransactionOf(raw[j]) := StoredFor(raw[i], MILD)]
    ensures partitionOf(raw[i].accountId) != partitionOf(raw[j].accountId) ==> CalmRun(Start(partitionOf, raw), steps)
  {
    hide Run, ValidRun, NoProduce, CalmRun, O.Apply, O.Enabled;
    var s0 := Start(partitionOf, raw);
    steps, s := BothClaim(partitionOf, raw, i, j);
    steps, s := Then(s0, steps, CheckDecision(0));
    steps, s := Then(s0, steps, CheckDecision(1));
    steps, s := Then(s0, steps, Evaluate(0, MILD));
    steps, s := Then(s0, steps, Evaluate(1, HARSH));
    steps, s := Then(s0, steps, Save(0));
    steps, s := Then(s0, steps, Save(1));
  }

  /** A stored decision and an enqueued decision event of one transaction with different verdicts. */
  ghost predicate Contradicted(s: State, t: string) {
    t in s.decisions && exists k, d :: DecisionRow(s, k, d) && d.transactionId == t && d.verdict != s.decisions[t].verdict
  }

  predicate DecisionRow(s: State, k: nat, d: DecisionEvent) {
    k < |s.outbox.rows| && s.outbox.rows[k].payload == Decision(d)
  }

  lemma ContradictionIsDisagreement(s: State, t: string)
    requires Contradicted(s, t)
    ensures !Agreed(s)
  {
    var k, d :| DecisionRow(s, k, d) && d.transactionId == t && d.verdict != s.decisions[t].verdict;
    ShapesHold(s.outbox.rows, k, t);
    assert DecisionShape(d.accountId, d.verdict) in Shapes(s.outbox.rows, t);
    assert DecisionShape(d.accountId, d.verdict) !in Plan(s.decisions[t]);
  }

  /** The loser of the race announces its own verdict; a calm run where the partitions differ. */
  lemma LoserAnnounces(partitionOf: string -> nat, raw: seq<RawEvent>, i: nat, j: nat) returns (steps: seq<Step>)
    requires i < |raw| && j < |raw| && Siblings(raw[i], raw[j])
    ensures ValidRun(Start(partitionOf, raw), steps) && NoProduce(steps)
    ensures Contradicted(Run(Start(partitionOf, raw), steps), TransactionOf(raw[j]))
    ensures partitionOf(raw[i].accountId) != partitionOf(raw[j].accountId) ==> CalmRun(Start(partitionOf, raw), steps)
  {
    hide Run, ValidRun, NoProduce, CalmRun, O.Apply, O.Enabled;
    var s0 := Start(partitionOf, raw);
    var s;
    steps, s := SecondSaveLoses(partitionOf, raw, i, j);
    steps, s := Then(s0, steps, EnqueueNext(1, 7, 0));
    steps, s := Then(s0, steps, EnqueueNext(1, 8, 1));
    assert DecisionRow(s, 1, s.outbox.rows[1].payload.event);
  }

  /** MAIN: as long as partitions only move between records, every run over a backlog keeps stored and announced
      decisions in agreement if and only if the events of each transaction lie in one partition. */
  lemma AgreementIff(partitionOf: string -> nat, raw: seq<RawEvent>)
    ensures var s := Start(partitionOf, raw);
            OnePartition(s) <==>
            forall steps :: ValidRun(s, steps) && NoProduce(steps) && CalmRun(s, steps) ==> Agreed(Run(s, steps))
  {
    hide Agreed, Run, ValidRun, NoProduce, CalmRun, SerialRun;
    var s := Start(partitionOf, raw);
    if OnePartition(s) {
      forall steps | ValidRun(s, steps) && NoProduce(steps) && CalmRun(s, steps) ensures Agreed(Run(s, steps)) {
        RawFixed(s, steps);
        FewerEvents(Run(s, steps), s);
        StartIsFine(partitionOf, raw);
        CalmIsSerial(s, steps);
        DecisionsAgree(s, steps);
      }
    } else {
      var i, j :| 0 <= i < |raw| && 0 <= j < |raw| && !Compatible(s, raw[i], raw[j]);
      var steps := LoserAnnounces(partitionOf, raw, i, j);
      ContradictionIsDisagreement(Run(s, steps), TransactionOf(raw[j]));
    }
  }

  /** MAIN: where partitions may move at any time, even one account is not enough: every run keeps agreement if and
      only if no transaction has two accepted events. */
  lemma AgreementUnderRebalancingIff(partitionOf: string -> nat, raw: seq<RawEvent>)
    ensures var s := Start(partitionOf, raw);
            OneEvent(s) <==> forall steps :: ValidRun(s, steps) && NoProduce(steps) ==> Agreed(Run(s, steps))
  {
    hide Agreed, Run, ValidRun, NoProduce, CalmRun, SerialRun;
    var s := Start(partitionOf, raw);
    if OneEvent(s) {
      forall steps | ValidRun(s, steps) && NoProduce(steps) ensures Agreed(Run(s, steps)) {
        RawFixed(s, steps);
        FewerEvents(Run(s, steps), s);
        StartIsFine(partitionOf, raw);
        OneEventIsSerial(s, steps);
        DecisionsAgree(s, steps);
      }
    } else {
      var i, j :| 0 <= i < |raw| && 0 <= j < |raw| && Siblings(raw[i], raw[j]);
      var steps := LoserAnnounces(partitionOf, raw, i, j);
      ContradictionIsDisagreement(Run(s, steps), TransactionOf(raw[j]));
    }
  }

  lemma StartIsFine(partitionOf: string -> nat, raw: seq<RawEvent>)
    ensures var s := Start(partitionOf, raw);
            Once(s) && Claimed(s) && Owned(s) && Orderly(s) && O.Ordered(s.outbox)
  {
  }
}
