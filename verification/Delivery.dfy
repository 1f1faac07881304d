/**
 The delivery protocol: raw events, the inbox, scoring, the outbox, and the two consumer groups
 on the decision topic.

 Every database call and every publish is one step. A worker that throws, is cancelled or dies
 takes the step `Crash` between any two others. A fetch may hand out any record at any time, so
 every retry, redelivery and replay the consumer host can produce is included. A partition may be
 given to another worker at any time, even while one of its records is being handled.
 */
module Delivery {
  import opened Text
  import opened Contracts
  import opened DecisionPolicy
  import O = Outbox

  datatype Group = TransactionProcessor | ProfileProcessor | DecisionPublisher

  datatype Job = RawJob(event: RawEvent) | PublishJob(decision: DecisionEvent) | ProfileJob(decision: DecisionEvent)

  function IdOf(j: Job): EventId {
    if j.RawJob? then j.event.id else j.decision.id
  }

  function GroupOf(j: Job): Group {
    match j
    case RawJob(_) => TransactionProcessor
    case PublishJob(_) => DecisionPublisher
    case ProfileJob(_) => ProfileProcessor
  }

  /** Where a worker stands in its handler. */
  datatype Worker =
    | Idle
    | Checked(job: Job)                                      // no inbox row was seen
    | Entered(job: Job)                                      // `TryBeginAsync` returned true
    | Fresh(event: RawEvent)                                 // no decision row was seen
    | Scored(event: RawEvent, verdict: Verdict)
    | Queueing(event: RawEvent, verdict: Verdict, sent: nat) // `SaveAsync` returned
    | Opening(decision: DecisionEvent)                       // no case was seen
    | Applied(decision: DecisionEvent)                       // the profile was saved
    | Finishing(job: Job)                                    // only `CompleteAsync` is left

  datatype InboxRow = InboxRow(consumer: Group, completed: bool)
  datatype Entrance = Entrance(id: EventId, group: Group)
  datatype Stored = Stored(accountId: string, verdict: Verdict)
  datatype OpenedCase = OpenedCase(accountId: string, score: int, level: RiskLevel, status: CaseStatus)
  datatype HistoryRow = HistoryRow(transactionId: string, from: CaseStatus, to: CaseStatus)

  /**
   - `raw`: accepted raw events; `partitionOf`: the partition of an account key, several keys to one partition;
     `owner`: which worker a partition is assigned to.
   - `inbox`, `decisions`, `cases`, `history`, `outbox`: the tables, keyed by their unique index.
   - `entered`: every time a handler body was entered past `TryBeginAsync`.
   */
  datatype State = State(
    raw: seq<RawEvent>,
    partitionOf: string -> nat,
    owner: map<nat, nat>,
    inbox: map<EventId, InboxRow>,
    entered: seq<Entrance>,
    decisions: map<string, Stored>,
    outbox: O.State,
    cases: map<string, OpenedCase>,
    history: seq<HistoryRow>,
    workers: map<nat, Worker>)

  /** The system before anything has happened, with the broker's assignment of keys to partitions. */
  function Empty(partitionOf: string -> nat): State {
    State([], partitionOf, map[], map[], [], map[], O.EMPTY, map[], [], map[])
  }

  function PartitionOf(s: State, e: RawEvent): nat {
    s.partitionOf(e.accountId)
  }

  /** The validator trims identifiers; the partition key is the account id as it was sent. */
  function TransactionOf(e: RawEvent): string {
    Trim(e.transactionId)
  }

  function StoredFor(e: RawEvent, v: Verdict): Stored {
    Stored(Trim(e.accountId), v)
  }

  function Planned(v: Verdict): nat {
    if NeedsAnalyst(v.decision) then 3 else 2
  }

  /** The event that `ProcessAsync` enqueues in place `n`. */
  function PayloadFor(e: RawEvent, v: Verdict, n: nat, id: EventId): Payload {
    if n == 0 then Validated(id, e)
    else if n == 1 then Decision(DecisionEvent(id, TransactionOf(e), Trim(e.accountId), v))
    else Alert(id, TransactionOf(e), Trim(e.accountId), v.decision, v.score)
  }

  function At(s: State, w: nat): Worker {
    if w in s.workers then s.workers[w] else Idle
  }

  function Put(s: State, w: nat, worker: Worker): State {
    s.(workers := s.workers[w := worker])
  }

  /** The raw event a worker of the first group is handling. */
  function Handling(worker: Worker): Option<RawEvent> {
    match worker
    case Checked(RawJob(e)) => Some(e)
    case Entered(RawJob(e)) => Some(e)
    case Fresh(e) => Some(e)
    case Scored(e, _) => Some(e)
    case Queueing(e, _, _) => Some(e)
    case Finishing(RawJob(e)) => Some(e)
    case _ => None
  }

  predicate InTopic(s: State, q: nat, d: DecisionEvent) {
    q < |s.outbox.log| && s.outbox.log[q] < |s.outbox.rows| && s.outbox.rows[s.outbox.log[q]].payload == Decision(d)
  }

  datatype Step =
    | Produce(event: RawEvent)
    | Assign(partition: nat, w: nat)
    | FetchRaw(w: nat, i: nat)
    | FetchDecision(w: nat, q: nat, job: Job)
    | Claim(w: nat)
    | ClaimUnacknowledged(w: nat)
    | CheckDecision(w: nat)
    | Evaluate(w: nat, verdict: Verdict)
    | Save(w: nat)
    | EnqueueNext(w: nat, id: EventId, createdAt: int)
    | CheckCase(w: nat)
    | OpenCase(w: nat)
    | ApplyProfile(w: nat)
    | EnqueueProfile(w: nat, id: EventId, createdAt: int)
    | Complete(w: nat)
    | Crash(w: nat)
    | AnalystMove(transactionId: string, to: CaseStatus)
    | Dispatch(step: O.Step)

  ghost predicate Enabled(s: State, step: Step) {
    match step
    case Produce(_) => true
    case Assign(_, _) => true
    case FetchRaw(w, i) =>
      && At(s, w).Idle? && i < |s.raw| && s.raw[i].valid && s.raw[i].id !in s.inbox
      && PartitionOf(s, s.raw[i]) in s.owner && s.owner[PartitionOf(s, s.raw[i])] == w
    case FetchDecision(w, q, job) =>
      At(s, w).Idle? && !job.RawJob? && InTopic(s, q, job.decision) && job.decision.id !in s.inbox
    case Claim(w) => At(s, w).Checked?
    case ClaimUnacknowledged(w) => At(s, w).Checked? && IdOf(At(s, w).job) !in s.inbox
    case CheckDecision(w) => At(s, w).Entered? && At(s, w).job.RawJob?
    case Evaluate(w, verdict) => At(s, w).Fresh? && Consistent(verdict)
    case Save(w) => At(s, w).Scored?
    case EnqueueNext(w, _, _) => At(s, w).Queueing? && At(s, w).sent < Planned(At(s, w).verdict)
    case CheckCase(w) => At(s, w).Entered? && At(s, w).job.PublishJob?
    case OpenCase(w) => At(s, w).Opening?
    case ApplyProfile(w) => At(s, w).Entered? && At(s, w).job.ProfileJob?
    case EnqueueProfile(w, _, _) => At(s, w).Applied?
    case Complete(w) => At(s, w).Finishing?
    case Crash(_) => true
    case AnalystMove(t, to) => t in s.cases && to != Open
    case Dispatch(ostep) => !ostep.Enqueue? && O.Enabled(s.outbox, ostep)
  }

  function Enqueue(s: State, payload: Payload, createdAt: int): State {
    s.(outbox := s.outbox.(rows := s.outbox.rows + [OutboxRow(payload, createdAt)]))
  }

  ghost function Apply(s: State, step: Step): State
    requires Enabled(s, step)
  {
    match step
    case Produce(e) => s.(raw := s.raw + [e])
    case Assign(partition, w) => s.(owner := s.owner[partition := w])
    case FetchRaw(w, i) => Put(s, w, Checked(RawJob(s.raw[i])))
    case FetchDecision(w, _, job) => Put(s, w, Checked(job))
    case Claim(w) =>
      var job := At(s, w).job;
      if IdOf(job) in s.inbox then Put(s, w, Idle)
      else
        Put(s.(inbox := s.inbox[IdOf(job) := InboxRow(GroupOf(job), false)],
               entered := s.entered + [Entrance(IdOf(job), GroupOf(job))]), w, Entered(job))
    case ClaimUnacknowledged(w) =>
      var job := At(s, w).job;
      Put(s.(inbox := s.inbox[IdOf(job) := InboxRow(GroupOf(job), false)]), w, Idle)
    case CheckDecision(w) =>
      var e := At(s, w).job.event;
      Put(s, w, if TransactionOf(e) in s.decisions then Finishing(RawJob(e)) else Fresh(e))
    case Evaluate(w, verdict) => Put(s, w, Scored(At(s, w).event, verdict))
    case Save(w) =>
      // A lost race on the unique index is swallowed and the handler goes on with its own verdict.
      var Scored(e, v) := At(s, w);
      var t := TransactionOf(e);
      Put(s.(decisions := if t in s.decisions then s.decisions else s.decisions[t := StoredFor(e, v)]),
          w, Queueing(e, v, 0))
    case EnqueueNext(w, id, createdAt) =>
      var Queueing(e, v, n) := At(s, w);
      Put(Enqueue(s, PayloadFor(e, v, n, id), createdAt), w,
          if n + 1 == Planned(v) then Finishing(RawJob(e)) else Queueing(e, v, n + 1))
    case CheckCase(w) =>
      var d := At(s, w).job.decision;
      Put(s, w, if NeedsAnalyst(d.verdict.decision) && d.transactionId !in s.cases then Opening(d) else Finishing(PublishJob(d)))
    case OpenCase(w) =>
      // The unique index on the transaction id makes a second insert throw.
      var d := At(s, w).decision;
      if d.transactionId in s.cases then Put(s, w, Idle)
      else
        Put(s.(cases := s.cases[d.transactionId := OpenedCase(d.accountId, d.verdict.score, d.verdict.level, Open)],
               history := s.history + [HistoryRow(d.transactionId, Open, Open)]), w, Finishing(PublishJob(d)))
    case ApplyProfile(w) => Put(s, w, Applied(At(s, w).job.decision))
    case EnqueueProfile(w, id, createdAt) =>
      var d := At(s, w).decision;
      Put(Enqueue(s, ProfileChanged(id, d.accountId), createdAt), w, Finishing(ProfileJob(d)))
    case Complete(w) =>
      var id := IdOf(At(s, w).job);
      Put(s.(inbox := if id in s.inbox then s.inbox[id := s.inbox[id].(completed := true)] else s.inbox), w, Idle)
    case Crash(w) => Put(s, w, Idle)
    case AnalystMove(t, to) =>
      s.(cases := s.cases[t := s.cases[t].(status := to)],
         history := s.history + [HistoryRow(t, s.cases[t].status, to)])
    case Dispatch(ostep) => s.(outbox := O.Apply(s.outbox, ostep))
  }

  ghost predicate ValidRun(s: State, steps: seq<Step>)
    decreases |steps|
  {
    steps == [] || (Enabled(s, steps[0]) && ValidRun(Apply(s, steps[0]), steps[1..]))
  }

  ghost function Run(s: State, steps: seq<Step>): State
    requires ValidRun(s, steps)
    decreases |steps|
  {
    if steps == [] then s else Run(Apply(s, steps[0]), steps[1..])
  }

  lemma {:induction false} RunSnoc(s: State, steps: seq<Step>, step: Step)
    requires ValidRun(s, steps) && Enabled(Run(s, steps), step)
    ensures ValidRun(s, steps + [step]) && Run(s, steps + [step]) == Apply(Run(s, steps), step)
    decreases |steps|
  {
    if steps == [] {
      assert ValidRun(Apply(s, step), []) && (steps + [step])[1..] == [];
    } else {
      RunSnoc(Apply(s, steps[0]), steps[1..], step);
      assert (steps + [step])[1..] == steps[1..] + [step];
    }
  }

  lemma RunCons(s: State, step: Step, rest: seq<Step>)
    requires Enabled(s, step) && ValidRun(Apply(s, step), rest)
    ensures ValidRun(s, [step] + rest) && Run(s, [step] + rest) == Run(Apply(s, step), rest)
  {
    assert ([step] + rest)[1..] == rest;
  }

  // ---- At most once ----

  /** Every entered event has its inbox row, and no event was entered twice. */
  ghost predicate Once(s: State) {
    && (forall i :: 0 <= i < |s.entered| ==>
          s.entered[i].id in s.inbox && s.inbox[s.entered[i].id].consumer == s.entered[i].group)
    && (forall i, j :: 0 <= i < j < |s.entered| ==> s.entered[i].id != s.entered[j].id)
  }

  lemma OnceStep(s: State, step: Step)
    requires Once(s) && Enabled(s, step)
    ensures Once(Apply(s, step))
  {
    hide O.Apply, O.Enabled, TransactionOf, StoredFor, PayloadFor, Planned, Consistent, NeedsAnalyst;
  }

  /** MAIN: over every interleaving of consumers, groups, retries, redeliveries and crashes, the body
      past `TryBeginAsync` is entered at most once per event id, by the one group whose claim is stored. */
  lemma {:induction false} EnteredAtMostOnce(s: State, steps: seq<Step>)
    requires Once(s) && ValidRun(s, steps)
    ensures Once(Run(s, steps))
    ensures forall i, j ::
              (0 <= i < |Run(s, steps).entered| && 0 <= j < |Run(s, steps).entered|
               && Run(s, steps).entered[i].id == Run(s, steps).entered[j].id) ==> i == j
    decreases |steps|
  {
    if steps != [] {
      OnceStep(s, steps[0]);
      EnteredAtMostOnce(Apply(s, steps[0]), steps[1..]);
    }
  }

  // ---- Serial handling ----

  /** The raw event whose handler body a worker is inside. */
  function Inside(worker: Worker): Option<RawEvent> {
    if worker.Checked? then None else Handling(worker)
  }

  predicate SameTransaction(a: Worker, b: Worker) {
    Inside(a).Some? && Inside(b).Some? && TransactionOf(Inside(a).value) == TransactionOf(Inside(b).value)
  }

  /** Two workers are never inside the same transaction. */
  ghost predicate Apart(s: State) {
    forall w, w' :: SameTransaction(At(s, w), At(s, w')) ==> w == w'
  }

  /** The events of one transaction are handled serially throughout the run. */
  ghost predicate SerialRun(s: State, steps: seq<Step>)
    requires ValidRun(s, steps)
    decreases |steps|
  {
    Apart(s) && (steps == [] || SerialRun(Apply(s, steps[0]), steps[1..]))
  }

  predicate SameClaim(a: Worker, b: Worker) {
    Inside(a).Some? && Inside(b).Some? && Inside(a).value.id == Inside(b).value.id
  }

  /** What a worker handles is an accepted event, and a claim has one holder. */
  ghost predicate Claimed(s: State) {
    && (forall w :: Handling(At(s, w)).Some? ==> Accepted(s, Handling(At(s, w)).value))
    && (forall w :: Inside(At(s, w)).Some? ==> Inside(At(s, w)).value.id in s.inbox)
    && (forall w, w' :: SameClaim(At(s, w), At(s, w')) ==> w == w')
  }

  ghost predicate Accepted(s: State, e: RawEvent) {
    e in s.raw && e.valid
  }

  ghost predicate OwnedBy(s: State, w: nat, e: RawEvent) {
    PartitionOf(s, e) in s.owner && s.owner[PartitionOf(s, e)] == w
  }

  /** A worker handles raw events only from partitions assigned to it. */
  ghost predicate Owned(s: State) {
    forall w :: Handling(At(s, w)).Some? ==> OwnedBy(s, w, Handling(At(s, w)).value)
  }

  lemma TablesGrow(s: State, step: Step)
    requires Enabled(s, step)
    ensures s.raw <= Apply(s, step).raw && s.inbox.Keys <= Apply(s, step).inbox.Keys
    ensures s.partitionOf == Apply(s, step).partitionOf
  {
    hide O.Apply, O.Enabled, Trim, PayloadFor, Planned, Consistent, NeedsAnalyst;
  }

  /** A worker is inside a raw event because it was, or because it has just claimed it. */
  lemma InsideStep(s: State, step: Step, w: nat)
    requires Enabled(s, step) && Inside(At(Apply(s, step), w)).Some?
    ensures var e := Inside(At(Apply(s, step), w));
            || e == Inside(At(s, w))
            || (step == Claim(w) && e.value.id !in s.inbox && e.value.id in Apply(s, step).inbox)
  {
    hide O.Apply, O.Enabled, Trim, PayloadFor, Planned, Consistent, NeedsAnalyst, PartitionOf;
  }

  /** A worker handles a raw event because it did, or because it has just fetched it from its partition. */
  lemma HandlingStep(s: State, step: Step, w: nat)
    requires Enabled(s, step) && Handling(At(Apply(s, step), w)).Some?
    ensures var e := Handling(At(Apply(s, step), w));
            || e == Handling(At(s, w))
            || (step.FetchRaw? && Accepted(s, e.value) && OwnedBy(s, w, e.value))
  {
    hide O.Apply, O.Enabled, Trim, PayloadFor, Planned, Consistent, NeedsAnalyst, PartitionOf;
  }

  lemma ClaimedStep(s: State, step: Step)
    requires Claimed(s) && Enabled(s, step)
    ensures Claimed(Apply(s, step))
  {
    hide Apply, Enabled, OwnedBy, Inside, Handling;
    var s' := Apply(s, step);
    TablesGrow(s, step);
    forall w | Handling(At(s', w)).Some? ensures Accepted(s', Handling(At(s', w)).value) {
      HandlingStep(s, step, w);
    }
    forall w | Inside(At(s', w)).Some?
      ensures Inside(At(s', w)).value.id in s'.inbox
      ensures Inside(At(s', w)) == Inside(At(s, w)) || (step == Claim(w) && Inside(At(s', w)).value.id !in s.inbox)
    {
      InsideStep(s, step, w);
    }
    forall w, w' | SameClaim(At(s', w), At(s', w')) ensures w == w' {
      assert SameClaim(At(s, w), At(s, w')) || step == Claim(w) || step == Claim(w');
    }
  }

  /** A partition changes hands only while none of its records is in somebody's. */
  ghost predicate Calm(s: State, step: Step) {
    step.Assign? ==>
      forall w :: Handling(At(s, w)).Some? ==> PartitionOf(s, Handling(At(s, w)).value) != step.partition
  }

  ghost predicate CalmRun(s: State, steps: seq<Step>)
    requires ValidRun(s, steps)
    decreases |steps|
  {
    steps == [] || (Calm(s, steps[0]) && CalmRun(Apply(s, steps[0]), steps[1..]))
  }

  lemma OwnedStep(s: State, step: Step)
    requires Owned(s) && Enabled(s, step) && Calm(s, step)
    ensures Owned(Apply(s, step))
  {
    hide Apply, Enabled, OwnedBy, Handling;
    var s' := Apply(s, step);
    forall w | Handling(At(s', w)).Some? ensures OwnedBy(s', w, Handling(At(s', w)).value) {
      HandlingStep(s, step, w);
      OwnersKept(s, step, w, Handling(At(s', w)).value);
    }
  }

  lemma OwnersKept(s: State, step: Step, w: nat, e: RawEvent)
    requires Enabled(s, step) && OwnedBy(s, w, e) && (step.Assign? ==> step.partition != PartitionOf(s, e))
    ensures OwnedBy(Apply(s, step), w, e)
  {
    hide O.Apply, O.Enabled, Trim, PayloadFor, Planned, Consistent, NeedsAnalyst;
  }

  /** No two accepted events of one transaction lie in different partitions. */
  ghost predicate OnePartition(s: State) {
    forall i, j :: 0 <= i < |s.raw| && 0 <= j < |s.raw| ==> Compatible(s, s.raw[i], s.raw[j])
  }

  predicate Siblings(e: RawEvent, e': RawEvent) {
    e.valid && e'.valid && e.id != e'.id && TransactionOf(e) == TransactionOf(e')
  }

  predicate Compatible(s: State, e: RawEvent, e': RawEvent) {
    Siblings(e, e') ==> PartitionOf(s, e) == PartitionOf(s, e')
  }

  /** No transaction has two accepted events. */
  ghost predicate OneEvent(s: State) {
    forall i, j :: 0 <= i < |s.raw| && 0 <= j < |s.raw| ==> !Siblings(s.raw[i], s.raw[j])
  }

  /** With one partition to a transaction, and partitions handled by their owners, handling is serial. */
  lemma Serial(s: State)
    requires Claimed(s) && Owned(s) && OnePartition(s)
    ensures Apart(s)
  {
    hide TransactionOf, PartitionOf, Handling;
    forall w, w' | SameTransaction(At(s, w), At(s, w')) ensures w == w' {
      var e, e' := Inside(At(s, w)).value, Inside(At(s, w')).value;
      assert Accepted(s, e) && Accepted(s, e') && OwnedBy(s, w, e) && OwnedBy(s, w', e');
      assert Compatible(s, e, e');
      assert e.id == e'.id ==> SameClaim(At(s, w), At(s, w'));
    }
  }

  lemma OneEventIsApart(s: State)
    requires Claimed(s) && OneEvent(s)
    ensures Apart(s)
  {
    hide TransactionOf, Handling;
    forall w, w' | SameTransaction(At(s, w), At(s, w')) ensures w == w' {
      var e, e' := Inside(At(s, w)).value, Inside(At(s, w')).value;
      assert Accepted(s, e) && Accepted(s, e');
      assert !Siblings(e, e');
      assert SameClaim(At(s, w), At(s, w'));
    }
  }

  lemma FewerEvents(s: State, s': State)
    requires s.raw <= s'.raw && s.partitionOf == s'.partitionOf
    ensures OnePartition(s') ==> OnePartition(s)
    ensures OneEvent(s') ==> OneEvent(s)
  {
    hide Siblings, Handling;
    assert forall i :: 0 <= i < |s.raw| ==> s.raw[i] == s'.raw[i];
    if OnePartition(s') {
      forall i, j | 0 <= i < |s.raw| && 0 <= j < |s.raw| ensures Compatible(s, s.raw[i], s.raw[j]) {
        assert Compatible(s', s'.raw[i], s'.raw[j]);
      }
    }
  }

  lemma {:induction false} RawGrows(s: State, steps: seq<Step>)
    requires ValidRun(s, steps)
    ensures s.raw <= Run(s, steps).raw && s.partitionOf == Run(s, steps).partitionOf
    decreases |steps|
  {
    hide Apply, Enabled;
    if steps != [] {
      TablesGrow(s, steps[0]);
      RawGrows(Apply(s, steps[0]), steps[1..]);
    }
  }

  /** MAIN: if the events of a transaction lie in one partition and no partition moves while one of its records is
      handled, then no run ever has two workers inside one transaction. */
  lemma {:induction false} CalmIsSerial(s: State, steps: seq<Step>)
    requires Claimed(s) && Owned(s)
    requires ValidRun(s, steps) && CalmRun(s, steps) && OnePartition(Run(s, steps))
    ensures SerialRun(s, steps) && Claimed(Run(s, steps)) && Owned(Run(s, steps))
    decreases |steps|
  {
    hide Apply, Enabled, Claimed, Owned, OnePartition, OneEvent, Calm, Apart;
    RawGrows(s, steps);
    FewerEvents(s, Run(s, steps));
    Serial(s);
    if steps != [] {
      ClaimedStep(s, steps[0]);
      OwnedStep(s, steps[0]);
      CalmIsSerial(Apply(s, steps[0]), steps[1..]);
    }
  }

  /** Where no transaction has two events, handling is serial wherever partitions move. */
  lemma {:induction false} OneEventIsSerial(s: State, steps: seq<Step>)
    requires Claimed(s) && ValidRun(s, steps) && OneEvent(Run(s, steps))
    ensures SerialRun(s, steps)
    decreases |steps|
  {
    hide Apply, Enabled, Claimed, OnePartition, OneEvent, Apart;
    RawGrows(s, steps);
    FewerEvents(s, Run(s, steps));
    OneEventIsApart(s);
    if steps != [] {
      ClaimedStep(s, steps[0]);
      OneEventIsSerial(Apply(s, steps[0]), steps[1..]);
    }
  }

  // ---- What the outbox says about one transaction ----

  /** An outbox event about a transaction, without its random id. */
  datatype Shape =
    | ValidatedShape
    | DecisionShape(accountId: string, verdict: Verdict)
    | AlertShape(accountId: string, decision: RiskDecision, score: int)

  function ShapeOf(p: Payload): Option<(string, Shape)> {
    match p
    case Validated(_, e) => Some((TransactionOf(e), ValidatedShape))
    case Decision(d) => Some((d.transactionId, DecisionShape(d.accountId, d.verdict)))
    case Alert(_, t, account, decision, score) => Some((t, AlertShape(account, decision, score)))
    case ProfileChanged(_, _) => None
  }

  function About(p: Payload, t: string): seq<Shape> {
    if ShapeOf(p).Some? && ShapeOf(p).value.0 == t then [ShapeOf(p).value.1] else []
  }

  /** The events about `t`, in commit order. */
  function Shapes(rows: seq<OutboxRow>, t: string): seq<Shape> {
    if rows == [] then [] else Shapes(rows[..|rows| - 1], t) + About(rows[|rows| - 1].payload, t)
  }

  /** Validated, then the decision, then an alert for Review or Block only. */
  function Plan(d: Stored): seq<Shape> {
    [ValidatedShape, DecisionShape(d.accountId, d.verdict)]
    + if NeedsAnalyst(d.verdict.decision) then [AlertShape(d.accountId, d.verdict.decision, d.verdict.score)] else []
  }

  /** Two events for an approved transaction, three for any other. */
  lemma PlanMeaning(accountId: string, v: Verdict)
    ensures Plan(Stored(accountId, v)) ==
      if v.decision == Approve then [ValidatedShape, DecisionShape(accountId, v)]
      else [ValidatedShape, DecisionShape(accountId, v), AlertShape(accountId, v.decision, v.score)]
  {
  }

  lemma ShapesSnoc(rows: seq<OutboxRow>, row: OutboxRow, t: string)
    ensures Shapes(rows + [row], t) == Shapes(rows, t) + About(row.payload, t)
  {
    assert (rows + [row])[..|rows|] == rows;
  }

  lemma {:induction false} ShapesHold(rows: seq<OutboxRow>, k: nat, t: string)
    requires k < |rows| && About(rows[k].payload, t) != []
    ensures About(rows[k].payload, t)[0] in Shapes(rows, t)
  {
    if k < |rows| - 1 {
      ShapesHold(rows[..|rows| - 1], k, t);
    }
  }

  /** Stored and announced agree for every transaction. */
  ghost predicate Agreed(s: State) {
    && (forall t :: Shapes(s.outbox.rows, t) != [] ==> t in s.decisions)
    && (forall t :: t in s.decisions ==>
          Consistent(s.decisions[t].verdict) && Shapes(s.outbox.rows, t) <= Plan(s.decisions[t]))
  }

  /** What a worker inside a transaction may rely on. */
  ghost predicate Placed(s: State, worker: Worker) {
    match worker
    case Fresh(e) => TransactionOf(e) !in s.decisions
    case Scored(e, v) => TransactionOf(e) !in s.decisions && Consistent(v)
    case Queueing(e, v, n) =>
      && TransactionOf(e) in s.decisions && s.decisions[TransactionOf(e)] == StoredFor(e, v)
      && n < Planned(v) && Shapes(s.outbox.rows, TransactionOf(e)) == Plan(StoredFor(e, v))[..n]
    case _ => true
  }

  ghost predicate Orderly(s: State) {
    Agreed(s) && forall w :: Placed(s, At(s, w))
  }

  /** A change that concerns only transaction `t` leaves workers elsewhere in place. */
  lemma PlacedElsewhere(s: State, s': State, t: string, worker: Worker)
    requires Placed(s, worker)
    requires Inside(worker).Some? ==> TransactionOf(Inside(worker).value) != t
    requires forall t' :: t' != t ==> Shapes(s'.outbox.rows, t') == Shapes(s.outbox.rows, t')
    requires forall t' :: t' != t ==> (t' in s'.decisions <==> t' in s.decisions)
    requires forall t' :: t' != t && t' in s.decisions ==> s'.decisions[t'] == s.decisions[t']
    ensures Placed(s', worker)
  {
  }

  lemma OthersElsewhere(s: State, w: nat, w': nat)
    requires Apart(s) && w' != w && Inside(At(s, w)).Some?
    ensures Inside(At(s, w')).Some? ==>
              TransactionOf(Inside(At(s, w')).value) != TransactionOf(Inside(At(s, w)).value)
  {
    assert !SameTransaction(At(s, w), At(s, w'));
  }

  /** A save by the only worker inside its transaction stores its verdict and keeps the agreement. */
  lemma SaveStep(s: State, w: nat)
    requires Orderly(s) && Apart(s) && Enabled(s, Save(w))
    ensures Orderly(Apply(s, Save(w)))
    ensures var Scored(e, v) := At(s, w);
            Apply(s, Save(w)).decisions == s.decisions[TransactionOf(e) := StoredFor(e, v)]
  {
    hide Apart;
    var s' := Apply(s, Save(w));
    var Scored(e, v) := At(s, w);
    var t := TransactionOf(e);
    assert Placed(s, At(s, w));
    assert Shapes(s.outbox.rows, t) == [];
    forall w' ensures Placed(s', At(s', w')) {
      if w' != w {
        assert Placed(s, At(s, w'));
        OthersElsewhere(s, w, w');
        PlacedElsewhere(s, s', t, At(s, w'));
      }
    }
  }

  /** The `n`-th enqueue of a handler appends the `n`-th planned shape and touches no other transaction. */
  lemma EnqueueAppends(rows: seq<OutboxRow>, e: RawEvent, v: Verdict, n: nat, id: EventId, createdAt: int, t: string)
    requires n < Planned(v)
    ensures Shapes(rows + [OutboxRow(PayloadFor(e, v, n, id), createdAt)], t)
            == Shapes(rows, t) + if t == TransactionOf(e) then [Plan(StoredFor(e, v))[n]] else []
  {
    ShapesSnoc(rows, OutboxRow(PayloadFor(e, v, n, id), createdAt), t);
  }

  lemma EnqueueEffects(s: State, w: nat, id: EventId, createdAt: int)
    requires Enabled(s, EnqueueNext(w, id, createdAt))
    ensures At(s, w).Queueing?
    ensures var Queueing(e, v, n) := At(s, w);
            var s' := Apply(s, EnqueueNext(w, id, createdAt));
            && n < Planned(v) && s'.decisions == s.decisions
            && s'.outbox.rows == s.outbox.rows + [OutboxRow(PayloadFor(e, v, n, id), createdAt)]
            && At(s', w) == (if n + 1 == Planned(v) then Finishing(RawJob(e)) else Queueing(e, v, n + 1))
            && forall w' :: w' != w ==> At(s', w') == At(s, w')
  {
    hide TransactionOf, StoredFor, PayloadFor, Planned, Consistent;
  }

  /** Each enqueue adds the next planned event of its transaction, nothing to any other, and keeps the agreement. */
  lemma EnqueueStep(s: State, w: nat, id: EventId, createdAt: int)
    requires Orderly(s) && Apart(s) && Enabled(s, EnqueueNext(w, id, createdAt))
    ensures Orderly(Apply(s, EnqueueNext(w, id, createdAt)))
    ensures var Queueing(e, v, n) := At(s, w);
            var s' := Apply(s, EnqueueNext(w, id, createdAt));
            && TransactionOf(e) in s.decisions && n < |Plan(s.decisions[TransactionOf(e)])|
            && (forall t :: Shapes(s'.outbox.rows, t) ==
                  Shapes(s.outbox.rows, t) + if t == TransactionOf(e) then [Plan(s.decisions[t])[n]] else [])
  {
    hide Shapes, Plan, About, Apart, Apply, Enabled, TransactionOf, PayloadFor, Consistent;
    var step := EnqueueNext(w, id, createdAt);
    EnqueueEffects(s, w, id, createdAt);
    var s' := Apply(s, step);
    var Queueing(e, v, n) := At(s, w);
    var t := TransactionOf(e);
    var plan := Plan(StoredFor(e, v));
    assert Placed(s, At(s, w));
    assert |plan| == Planned(v) by { PlanLength(StoredFor(e, v)); }
    forall t' ensures Shapes(s'.outbox.rows, t') == Shapes(s.outbox.rows, t') + if t' == t then [plan[n]] else [] {
      EnqueueAppends(s.outbox.rows, e, v, n, id, createdAt, t');
    }
    assert plan[..n] + [plan[n]] == plan[..n + 1] <= plan;
    forall w' ensures Placed(s', At(s', w')) {
      if w' != w {
        assert Placed(s, At(s, w'));
        OthersElsewhere(s, w, w');
        PlacedElsewhere(s, s', t, At(s, w'));
      }
    }
  }

  lemma PlanLength(d: Stored)
    ensures |Plan(d)| == Planned(d.verdict)
  {
  }

  /** A step that writes neither a decision nor an outbox row. */
  lemma QuietStep(s: State, step: Step)
    requires Orderly(s) && Enabled(s, step)
    requires !step.Save? && !step.EnqueueNext? && !step.EnqueueProfile?
    ensures Orderly(Apply(s, step))
  {
    hide Shapes, Plan, Enabled, Apply;
    var s' := Apply(s, step);
    assert s'.outbox.rows == s.outbox.rows by { DispatchKeepsRows(s, step); }
    assert s'.decisions == s.decisions by { DecisionsKept(s, step); }
    forall w ensures Placed(s', At(s', w)) {
      assert Placed(s, At(s, w));
      assert At(s', w) == At(s, w) || Placed(s', At(s', w)) by {
        NewPlace(s, step, w);
      }
    }
  }

  lemma DecisionsKept(s: State, step: Step)
    requires Enabled(s, step) && !step.Save?
    ensures Apply(s, step).decisions == s.decisions
  {
    hide O.Apply, O.Enabled, Trim, PayloadFor, Planned, Consistent, NeedsAnalyst, PartitionOf;
  }

  lemma DispatchKeepsRows(s: State, step: Step)
    requires Enabled(s, step) && !step.EnqueueNext? && !step.EnqueueProfile?
    ensures Apply(s, step).outbox.rows == s.outbox.rows
  {
    hide Trim, PayloadFor, Planned, Consistent, NeedsAnalyst, PartitionOf;
  }

  lemma NewPlace(s: State, step: Step, w: nat)
    requires Placed(s, At(s, w)) && Enabled(s, step)
    requires !step.Save? && !step.EnqueueNext? && !step.EnqueueProfile?
    ensures At(Apply(s, step), w) == At(s, w) || Placed(Apply(s, step), At(Apply(s, step), w))
  {
    hide Shapes, Plan, O.Apply, O.Enabled, Trim, PayloadFor, Planned, NeedsAnalyst, PartitionOf;
  }

  lemma ProfileStep(s: State, w: nat, id: EventId, createdAt: int)
    requires Orderly(s) && Enabled(s, EnqueueProfile(w, id, createdAt))
    ensures Orderly(Apply(s, EnqueueProfile(w, id, createdAt)))
  {
    hide Trim, Consistent, Plan, Apply, Enabled, Shapes, TransactionOf, StoredFor;
    var s' := Apply(s, EnqueueProfile(w, id, createdAt));
    ProfileEffects(s, w, id, createdAt);
    forall w' ensures Placed(s', At(s', w')) {
      assert Placed(s, At(s, w'));
    }
  }

  lemma ProfileEffects(s: State, w: nat, id: EventId, createdAt: int)
    requires Enabled(s, EnqueueProfile(w, id, createdAt))
    ensures var s' := Apply(s, EnqueueProfile(w, id, createdAt));
            && s'.decisions == s.decisions
            && (forall t :: Shapes(s'.outbox.rows, t) == Shapes(s.outbox.rows, t))
            && (forall w' :: At(s', w') == At(s, w') || At(s', w').Finishing?)
  {
    hide Trim, Shapes;
    var s' := Apply(s, EnqueueProfile(w, id, createdAt));
    forall t ensures Shapes(s'.outbox.rows, t) == Shapes(s.outbox.rows, t) {
      ShapesSnoc(s.outbox.rows, OutboxRow(ProfileChanged(id, At(s, w).decision.accountId), createdAt), t);
    }
  }

  lemma OrderlyStep(s: State, step: Step)
    requires Orderly(s) && Apart(s) && Enabled(s, step)
    ensures Orderly(Apply(s, step))
  {
    hide Orderly, Apply, Enabled;
    match step
    case Save(w) => SaveStep(s, w);
    case EnqueueNext(w, id, createdAt) => EnqueueStep(s, w, id, createdAt);
    case EnqueueProfile(w, id, createdAt) => ProfileStep(s, w, id, createdAt);
    case _ => QuietStep(s, step);
  }

  lemma DecisionsStay(s: State, step: Step)
    requires Enabled(s, step)
    ensures forall t :: t in s.decisions ==> t in Apply(s, step).decisions && Apply(s, step).decisions[t] == s.decisions[t]
  {
    hide O.Apply, O.Enabled, Trim, PayloadFor, Planned, Consistent, NeedsAnalyst, PartitionOf;
  }

  /** MAIN: in every run that handles the events of a transaction serially, the stored decision of a transaction
      never changes, and what the outbox says of it is a prefix of validated, decision, alert, with the stored
      score, level and decision, the alert only for Review or Block. */
  lemma {:induction false} DecisionsAgree(s: State, steps: seq<Step>)
    requires Orderly(s) && ValidRun(s, steps) && SerialRun(s, steps)
    ensures Orderly(Run(s, steps))
    ensures forall t :: t in s.decisions ==> t in Run(s, steps).decisions && Run(s, steps).decisions[t] == s.decisions[t]
    ensures forall t :: t in Run(s, steps).decisions ==>
              Shapes(Run(s, steps).outbox.rows, t) <= Plan(Run(s, steps).decisions[t])
    ensures forall t :: t !in Run(s, steps).decisions ==> Shapes(Run(s, steps).outbox.rows, t) == []
    decreases |steps|
  {
    hide Apply, Enabled, Shapes, Plan, Apart;
    if steps != [] {
      DecisionsStay(s, steps[0]);
      OrderlyStep(s, steps[0]);
      DecisionsAgree(Apply(s, steps[0]), steps[1..]);
    }
  }
}
