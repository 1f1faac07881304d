/**
 The handlers as they run against the database: `ProcessAsync` and the two consumers of the decision topic, over
 the tables of the inbox, the decisions, the outbox and the cases. Every table operation is one step of the
 delivery machine, and so is leaving a handler by an exception, so what holds of all runs holds of what they do.
 */
module Workers {
  import opened Text
  import opened Contracts
  import opened DecisionPolicy
  import opened Delivery
  import CaseLineage

  /** How a handler call ends. */
  datatype Outcome = Duplicate | Replayed | Processed | Thrown

  class Database {
    var inbox: map<EventId, InboxRow>
    var decisions: map<string, Stored>
    var outbox: seq<OutboxRow>
    var cases: map<string, OpenedCase>
    var history: seq<HistoryRow>
    ghost const partitionOf: string -> nat
    ghost var rest: State
    ghost var trace: seq<Step>

    /** The machine state: the tables, and from `rest` everything that is not a table. */
    ghost function Abs(): State
      reads this
    {
      rest.(inbox := inbox, decisions := decisions, outbox := rest.outbox.(rows := outbox),
            cases := cases, history := history)
    }

    /** The database is where the run `trace` of the delivery machine leads. */
    ghost predicate Valid()
      reads this
    {
      ValidRun(Empty(partitionOf), trace) && Abs() == Run(Empty(partitionOf), trace)
    }

    /** Where worker `w` stands in its handler. */
    ghost function Place(w: nat): Worker
      reads this
    {
      At(rest, w)
    }

    constructor (ghost partitionOf: string -> nat)
      ensures Valid() && trace == [] && Abs() == Empty(partitionOf) && this.partitionOf == partitionOf
    {
      inbox, decisions, outbox, cases, history := map[], map[], [], map[], [];
      this.partitionOf, rest, trace := partitionOf, Empty(partitionOf), [];
    }

    /** A step taken elsewhere that writes none of the tables: a raw event, an assignment, a publish, a crash. */
    ghost method Elsewhere(step: Step)
      requires Valid() && Enabled(Abs(), step)
      requires var s := Apply(Abs(), step);
               && s.inbox == inbox && s.decisions == decisions && s.outbox.rows == outbox
               && s.cases == cases && s.history == history
      modifies this`rest, this`trace
      ensures Valid() && trace == old(trace) + [step] && Abs() == Apply(old(Abs()), step)
    {
      Record(step, Apply(Abs(), step));
    }

    /** An exception leaves the handler. */
    ghost method Leave(w: nat)
      requires Valid()
      modifies this`rest, this`trace
      ensures Valid() && old(trace) <= trace && Place(w).Idle?
    {
      Record(Crash(w), Apply(Abs(), Crash(w)));
    }

    // ---- The stores: one step each ----

    /** The ghost half of a step; the caller writes the tables. */
    ghost method Record(step: Step, s: State)
      requires ValidRun(Empty(partitionOf), trace) && Enabled(Run(Empty(partitionOf), trace), step)
      requires s == Apply(Run(Empty(partitionOf), trace), step)
      modifies this`rest, this`trace
      ensures rest == s && trace == old(trace) + [step]
      ensures ValidRun(Empty(partitionOf), trace) && Run(Empty(partitionOf), trace) == s
    {
      RunSnoc(Empty(partitionOf), trace, step);
      rest, trace := s, trace + [step];
    }

    /** `EfInboxStore.TryBeginAsync`: `fetch` hands the job to worker `w`, which then claims its event id. */
    method TryBegin(ghost w: nat, job: Job, ghost fetch: Step) returns (begun: bool)
      requires Valid()
      requires IdOf(job) !in inbox ==> Enabled(Abs(), fetch) && Apply(Abs(), fetch) == Put(Abs(), w, Checked(job))
      modifies this
      ensures Valid() && begun == (IdOf(job) !in old(inbox))
      ensures trace == old(trace) + if begun then [fetch, Claim(w)] else []
      ensures if begun then Place(w) == Entered(job) else Place(w) == old(Place(w))
      ensures inbox == if begun then old(inbox)[IdOf(job) := InboxRow(GroupOf(job), false)] else old(inbox)
      ensures decisions == old(decisions) && outbox == old(outbox) && cases == old(cases) && history == old(history)
    {
      if IdOf(job) in inbox {
        return false;
      }
      ghost var s := Apply(Apply(Abs(), fetch), Claim(w));
      inbox := inbox[IdOf(job) := InboxRow(GroupOf(job), false)];
      Record(fetch, Apply(old(Abs()), fetch));
      Record(Claim(w), s);
      return true;
    }

    /** `EfInboxStore.CompleteAsync` */
    method Complete(ghost w: nat, job: Job, ack: Ack) returns (ok: bool)
      requires Valid() && Place(w) == Finishing(job)
      modifies this
      ensures Valid() && old(trace) <= trace && Place(w).Idle? && ok == ack.Done?
      ensures inbox == if IdOf(job) in old(inbox) && !ack.NotDone?
                       then old(inbox)[IdOf(job) := old(inbox)[IdOf(job)].(completed := true)] else old(inbox)
      ensures decisions == old(decisions) && outbox == old(outbox) && cases == old(cases) && history == old(history)
    {
      if !ack.NotDone? {
        ghost var s := Apply(Abs(), Step.Complete(w));
        if IdOf(job) in inbox {
          inbox := inbox[IdOf(job) := inbox[IdOf(job)].(completed := true)];
        }
        Record(Step.Complete(w), s);
      } else {
        Leave(w);
      }
      ok := ack.Done?;
    }

    /** `EfRiskDecisionRepository.ExistsForTransactionAsync` */
    method Exists(ghost w: nat, e: RawEvent) returns (found: bool)
      requires Valid() && Place(w) == Entered(RawJob(e))
      modifies this`rest, this`trace
      ensures Valid() && trace == old(trace) + [CheckDecision(w)]
      ensures found == (TransactionOf(e) in decisions)
      ensures Place(w) == if found then Finishing(RawJob(e)) else Fresh(e)
    {
      found := TransactionOf(e) in decisions;
      Record(CheckDecision(w), Apply(Abs(), CheckDecision(w)));
    }

    /** The engine's answer; it writes nothing. */
    ghost method Score(w: nat, v: Verdict)
      requires Valid() && Place(w).Fresh? && Consistent(v)
      modifies this`rest, this`trace
      ensures Valid() && trace == old(trace) + [Evaluate(w, v)]
      ensures Place(w) == Scored(old(Place(w)).event, v)
    {
      Record(Evaluate(w, v), Apply(Abs(), Evaluate(w, v)));
    }

    /** `EfRiskDecisionRepository.SaveAsync`: a lost race on the unique index is swallowed. */
    method Save(ghost w: nat, e: RawEvent, v: Verdict, ack: Ack) returns (ok: bool)
      requires Valid() && Place(w) == Scored(e, v)
      modifies this
      ensures Valid() && old(trace) <= trace && ok == ack.Done?
      ensures if ok then Place(w) == Queueing(e, v, 0) else Place(w).Idle?
      ensures decisions == if TransactionOf(e) in old(decisions) || ack.NotDone? then old(decisions)
                           else old(decisions)[TransactionOf(e) := StoredFor(e, v)]
      ensures inbox == old(inbox) && outbox == old(outbox) && cases == old(cases) && history == old(history)
    {
      if !ack.NotDone? {
        ghost var s := Apply(Abs(), Step.Save(w));
        if TransactionOf(e) !in decisions {
          decisions := decisions[TransactionOf(e) := StoredFor(e, v)];
        }
        Record(Step.Save(w), s);
      }
      if !ack.Done? {
        Leave(w);
      }
      ok := ack.Done?;
    }

    /** `EfOutboxStore.EnqueueAsync`, as the `n`-th enqueue of `ProcessAsync`. */
    method EnqueueNext(ghost w: nat, e: RawEvent, v: Verdict, n: nat, id: EventId, createdAt: int, ack: Ack)
      returns (ok: bool)
      requires Valid() && Place(w) == Queueing(e, v, n) && n < Planned(v)
      modifies this
      ensures Valid() && old(trace) <= trace && ok == ack.Done?
      ensures Place(w) ==
        if !ok then Idle else if n + 1 == Planned(v) then Finishing(RawJob(e)) else Queueing(e, v, n + 1)
      ensures outbox ==
        if ack.NotDone? then old(outbox) else old(outbox) + [OutboxRow(PayloadFor(e, v, n, id), createdAt)]
      ensures inbox == old(inbox) && decisions == old(decisions) && cases == old(cases) && history == old(history)
    {
      if !ack.NotDone? {
        ghost var step := Step.EnqueueNext(w, id, createdAt);
        ghost var s := Apply(Abs(), step);
        outbox := outbox + [OutboxRow(PayloadFor(e, v, n, id), createdAt)];
        Record(step, s);
      }
      if !ack.Done? {
        Leave(w);
      }
      ok := ack.Done?;
    }

    // ---- ProcessAsync ----

    /**
     `ProcessAsync`: claim, check, score, save, enqueue two or three events, complete. `verdict` is the engine's
     answer, or none where the evaluation throws. The writes after the claim are numbered from 0 in program order;
     write `failing` throws, if there is such a write, and takes effect all the same where `landed` says so.
     */
    method ProcessAsync(ghost w: nat, ghost i: nat, message: RawEvent, verdict: Option<Verdict>,
                        ids: seq<EventId>, times: seq<int>, failing: nat, landed: bool)
      returns (outcome: Outcome)
      requires Valid() && Place(w).Idle? && i < |rest.raw| && rest.raw[i] == message
      requires PartitionOf(rest, message) in rest.owner && rest.owner[PartitionOf(rest, message)] == w
      requires verdict.Some? ==> Consistent(verdict.value)
      requires |ids| == |times| == 3
      modifies this
      ensures Valid() && old(trace) <= trace && Place(w).Idle?
      ensures cases == old(cases) && history == old(history)
      ensures var writes := Writes(message, old(decisions), verdict);
        && outcome == (if !message.valid then Thrown
                       else if message.id in old(inbox) then Duplicate
                       else if failing < writes || (TransactionOf(message) !in old(decisions) && verdict.None?) then Thrown
                       else if TransactionOf(message) in old(decisions) then Replayed
                       else Processed)
        && inbox == (if !message.valid || message.id in old(inbox) then old(inbox)
                     else old(inbox)[message.id :=
                            InboxRow(TransactionProcessor, writes > 0 && Effective(failing, landed, writes) == writes)])
      ensures if message.valid && message.id !in old(inbox) && TransactionOf(message) !in old(decisions) && verdict.Some?
              then
                var done := Effective(failing, landed, Planned(verdict.value) + 2);
                && decisions == (if done == 0 then old(decisions)
                                 else old(decisions)[TransactionOf(message) := StoredFor(message, verdict.value)])
                && outbox == old(outbox) + FirstRows(message, verdict.value, ids, times, done)
              else decisions == old(decisions) && outbox == old(outbox)
      ensures outcome == Processed ==>
        var t, account, v := Trim(message.transactionId), Trim(message.accountId), verdict.value;
        && decisions == old(decisions)[t := Stored(account, v)]
        && inbox == old(inbox)[message.id := InboxRow(TransactionProcessor, true)]
        && outbox == old(outbox)
             + [OutboxRow(Validated(ids[0], message), times[0]),
                OutboxRow(Decision(DecisionEvent(ids[1], t, account, v)), times[1])]
             + if v.decision == Approve then []
               else [OutboxRow(Alert(ids[2], t, account, v.decision, v.score), times[2])]
    {
      hide Valid, FirstRows, Place;
      if verdict.Some? {
        AllRows(message, verdict.value, ids, times);
      }
      if !message.valid {
        return Thrown;
      }
      var begun := TryBeginRaw(w, i, message);
      if !begun {
        return Duplicate;
      }
      outcome := HandleClaimed(w, message, verdict, ids, times, failing, landed);
    }

    /** The claim of a raw event by the worker that owns its partition. */
    method TryBeginRaw(ghost w: nat, ghost i: nat, e: RawEvent) returns (begun: bool)
      requires Valid() && Place(w).Idle? && i < |rest.raw| && rest.raw[i] == e && e.valid
      requires PartitionOf(rest, e) in rest.owner && rest.owner[PartitionOf(rest, e)] == w
      modifies this
      ensures Valid() && old(trace) <= trace && begun == (e.id !in old(inbox))
      ensures if begun then Place(w) == Entered(RawJob(e)) else Place(w).Idle?
      ensures inbox == if begun then old(inbox)[e.id := InboxRow(TransactionProcessor, false)] else old(inbox)
      ensures decisions == old(decisions) && outbox == old(outbox) && cases == old(cases) && history == old(history)
    {
      hide Valid;
      FetchEnabled(Abs(), w, i);
      begun := TryBegin(w, RawJob(e), FetchRaw(w, i));
    }

    /** The try block of `ProcessAsync`. */
    method HandleClaimed(ghost w: nat, e: RawEvent, verdict: Option<Verdict>, ids: seq<EventId>, times: seq<int>,
                         failing: nat, landed: bool)
      returns (outcome: Outcome)
      requires Valid() && Place(w) == Entered(RawJob(e)) && e.id in inbox
      requires verdict.Some? ==> Consistent(verdict.value)
      requires |ids| == |times| == 3
      modifies this
      ensures Valid() && old(trace) <= trace && Place(w).Idle?
      ensures cases == old(cases) && history == old(history)
      ensures var writes := Writes(e, old(decisions), verdict);
        && outcome == (if failing < writes || (TransactionOf(e) !in old(decisions) && verdict.None?) then Thrown
                       else if TransactionOf(e) in old(decisions) then Replayed
                       else Processed)
        && inbox == (if writes > 0 && Effective(failing, landed, writes) == writes
                     then old(inbox)[e.id := old(inbox)[e.id].(completed := true)] else old(inbox))
      ensures if TransactionOf(e) !in old(decisions) && verdict.Some?
              then
                var done := Effective(failing, landed, Planned(verdict.value) + 2);
                && decisions == (if done == 0 then old(decisions)
                                 else old(decisions)[TransactionOf(e) := StoredFor(e, verdict.value)])
                && outbox == old(outbox) + FirstRows(e, verdict.value, ids, times, done)
              else decisions == old(decisions) && outbox == old(outbox)
    {
      hide Valid, FirstRows, Place;
      var replay := Exists(w, e);
      if replay {
        var ok := Complete(w, RawJob(e), AckOf(failing, landed, 0));
        return if ok then Replayed else Thrown;
      }
      if verdict.None? {
        Leave(w);
        return Thrown;
      }
      Score(w, verdict.value);
      outcome := Finish(w, e, verdict.value, ids, times, failing, landed);
    }

    /** From the save to the completion. */
    method Finish(ghost w: nat, e: RawEvent, v: Verdict, ids: seq<EventId>, times: seq<int>, failing: nat, landed: bool)
      returns (outcome: Outcome)
      requires Valid() && Place(w) == Scored(e, v) && e.id in inbox && TransactionOf(e) !in decisions
      requires |ids| == |times| == 3
      modifies this
      ensures Valid() && old(trace) <= trace && Place(w).Idle?
      ensures cases == old(cases) && history == old(history)
      ensures var writes := Planned(v) + 2;
        var done := Effective(failing, landed, writes);
        && outcome == (if failing < writes then Thrown else Processed)
        && inbox == (if done == writes then old(inbox)[e.id := old(inbox)[e.id].(completed := true)] else old(inbox))
        && decisions == (if done == 0 then old(decisions) else old(decisions)[TransactionOf(e) := StoredFor(e, v)])
        && outbox == old(outbox) + FirstRows(e, v, ids, times, done)
    {
      hide Valid, Place, PayloadFor;
      var ok := Save(w, e, v, AckOf(failing, landed, 0));
      if ok {
        ok := Announce(w, e, v, ids, times, failing, landed);
      }
      if ok {
        ok := Complete(w, RawJob(e), AckOf(failing, landed, Planned(v) + 1));
      }
      outcome := if ok then Processed else Thrown;
    }

    /** The two or three enqueues. */
    method Announce(ghost w: nat, e: RawEvent, v: Verdict, ids: seq<EventId>, times: seq<int>, failing: nat, landed: bool)
      returns (ok: bool)
      requires Valid() && Place(w) == Queueing(e, v, 0) && |ids| == |times| == 3 && failing > 0
      modifies this
      ensures Valid() && old(trace) <= trace && ok == (failing > Planned(v))
      ensures Place(w) == if ok then Finishing(RawJob(e)) else Idle
      ensures outbox == old(outbox) + FirstRows(e, v, ids, times, Effective(failing, landed, Planned(v) + 2))
      ensures inbox == old(inbox) && decisions == old(decisions) && cases == old(cases) && history == old(history)
    {
      hide Valid, Place, PayloadFor;
      ok := EnqueueNext(w, e, v, 0, ids[0], times[0], AckOf(failing, landed, 1));
      if ok {
        ok := EnqueueNext(w, e, v, 1, ids[1], times[1], AckOf(failing, landed, 2));
      }
      if ok && (v.decision == Review || v.decision == Block) {
        ok := EnqueueNext(w, e, v, 2, ids[2], times[2], AckOf(failing, landed, 3));
      }
    }

    // ---- The consumers of the decision topic ----

    /** The claim of a published decision for one of the two groups. */
    method TryBeginDecision(ghost w: nat, ghost q: nat, job: Job) returns (begun: bool)
      requires Valid() && Place(w).Idle? && !job.RawJob? && InTopic(Abs(), q, job.decision)
      modifies this
      ensures Valid() && old(trace) <= trace && begun == (job.decision.id !in old(inbox))
      ensures if begun then Place(w) == Entered(job) else Place(w).Idle?
      ensures inbox == if begun then old(inbox)[job.decision.id := InboxRow(GroupOf(job), false)] else old(inbox)
      ensures decisions == old(decisions) && outbox == old(outbox) && cases == old(cases) && history == old(history)
    {
      hide Valid;
      FetchDecisionEnabled(Abs(), w, q, job);
      begun := TryBegin(w, job, FetchDecision(w, q, job));
    }

    /** `Cases.Any` */
    method NeedsCase(ghost w: nat, d: DecisionEvent) returns (needed: bool)
      requires Valid() && Place(w) == Entered(PublishJob(d))
      modifies this`rest, this`trace
      ensures Valid() && trace == old(trace) + [CheckCase(w)]
      ensures needed == (NeedsAnalyst(d.verdict.decision) && d.transactionId !in cases)
      ensures Place(w) == if needed then Opening(d) else Finishing(PublishJob(d))
    {
      needed := (d.verdict.decision == Review || d.verdict.decision == Block) && d.transactionId !in cases;
      Record(CheckCase(w), Apply(Abs(), CheckCase(w)));
    }

    /** The case and its opening row, in one save. */
    method Open(ghost w: nat, d: DecisionEvent, ack: Ack) returns (ok: bool)
      requires Valid() && Place(w) == Opening(d) && d.transactionId !in cases
      modifies this
      ensures Valid() && old(trace) <= trace && ok == ack.Done?
      ensures Place(w) == if ok then Finishing(PublishJob(d)) else Idle
      ensures cases == (if ack.NotDone? then old(cases) else old(cases)[d.transactionId := CaseOf(d)])
      ensures history == (if ack.NotDone? then old(history) else old(history) + [OpeningRow(d)])
      ensures inbox == old(inbox) && decisions == old(decisions) && outbox == old(outbox)
    {
      if !ack.NotDone? {
        ghost var s := Apply(Abs(), OpenCase(w));
        cases := cases[d.transactionId := OpenedCase(d.accountId, d.verdict.score, d.verdict.level, CaseStatus.Open)];
        history := history + [HistoryRow(d.transactionId, CaseStatus.Open, CaseStatus.Open)];
        Record(OpenCase(w), s);
      }
      if !ack.Done? {
        Leave(w);
      }
      ok := ack.Done?;
    }

    /**
     `DecisionFanoutConsumer.HandleAsync`: `save` and `complete` say how the two writes end, `notified` whether
     the live notifications between them succeed.
     */
    method HandleDecision(ghost w: nat, ghost q: nat, d: DecisionEvent, save: Ack, notified: bool, complete: Ack)
      returns (outcome: Outcome)
      requires Valid() && Place(w).Idle? && InTopic(Abs(), q, d)
      modifies this
      ensures Valid() && old(trace) <= trace && Place(w).Idle?
      ensures decisions == old(decisions) && outbox == old(outbox)
      ensures var needed := NeedsAnalyst(d.verdict.decision) && d.transactionId !in old(cases);
        var reached := (needed ==> save.Done?) && notified;
        && outcome == (if d.id in old(inbox) then Duplicate
                       else if reached && complete.Done? then Processed else Thrown)
        && inbox == (if d.id in old(inbox) then old(inbox)
                     else old(inbox)[d.id := InboxRow(DecisionPublisher, reached && !complete.NotDone?)])
        && cases == (if d.id !in old(inbox) && needed && !save.NotDone?
                     then old(cases)[d.transactionId := CaseOf(d)] else old(cases))
        && history == (if d.id !in old(inbox) && needed && !save.NotDone?
                       then old(history) + [OpeningRow(d)] else old(history))
      ensures d.verdict.decision == Approve ==> cases == old(cases) && history == old(history)
      ensures d.id !in old(inbox) && d.verdict.decision in {Review, Block} && d.transactionId !in old(cases) && save.Done? ==>
        && cases == old(cases)[d.transactionId :=
                      OpenedCase(d.accountId, d.verdict.score, d.verdict.level, CaseStatus.Open)]
        && history == old(history) + [HistoryRow(d.transactionId, CaseStatus.Open, CaseStatus.Open)]
    {
      hide Valid, Place;
      var ok := TryBeginDecision(w, q, PublishJob(d));
      if !ok {
        return Duplicate;
      }
      var needed := NeedsCase(w, d);
      if needed {
        ok := Open(w, d, save);
        if !ok {
          return Thrown;
        }
      }
      if !notified {
        Leave(w);
        return Thrown;
      }
      ok := Complete(w, PublishJob(d), complete);
      outcome := if ok then Processed else Thrown;
    }

    /** `ApplyTransactionAsync` and the event about it; the columns are those of `CustomerProfile`. */
    method ApplyAndAnnounce(ghost w: nat, d: DecisionEvent, id: EventId, createdAt: int, ack: Ack) returns (ok: bool)
      requires Valid() && Place(w) == Entered(ProfileJob(d))
      modifies this
      ensures Valid() && old(trace) <= trace && ok == ack.Done?
      ensures Place(w) == if ok then Finishing(ProfileJob(d)) else Idle
      ensures outbox ==
        if ack.NotDone? then old(outbox) else old(outbox) + [OutboxRow(ProfileChanged(id, d.accountId), createdAt)]
      ensures inbox == old(inbox) && decisions == old(decisions) && cases == old(cases) && history == old(history)
    {
      Record(ApplyProfile(w), Apply(Abs(), ApplyProfile(w)));
      if !ack.NotDone? {
        ghost var s := Apply(Abs(), EnqueueProfile(w, id, createdAt));
        outbox := outbox + [OutboxRow(ProfileChanged(id, d.accountId), createdAt)];
        Record(EnqueueProfile(w, id, createdAt), s);
      }
      if !ack.Done? {
        Leave(w);
      }
      ok := ack.Done?;
    }

    /**
     `ProfileUpdateConsumer.HandleAsync`: `accepted` is the validator's answer, asked after the claim, and `applied`
     whether `ApplyTransactionAsync` returns, which it does not on an account's second update.
     */
    method HandleProfile(ghost w: nat, ghost q: nat, d: DecisionEvent, accepted: bool, applied: bool,
                         id: EventId, createdAt: int, enqueue: Ack, complete: Ack)
      returns (outcome: Outcome)
      requires Valid() && Place(w).Idle? && InTopic(Abs(), q, d)
      modifies this
      ensures Valid() && old(trace) <= trace && Place(w).Idle?
      ensures decisions == old(decisions) && cases == old(cases) && history == old(history)
      ensures var reached := accepted && applied;
        && outcome == (if d.id in old(inbox) then Duplicate
                       else if reached && enqueue.Done? && complete.Done? then Processed else Thrown)
        && inbox == (if d.id in old(inbox) then old(inbox)
                     else old(inbox)[d.id := InboxRow(ProfileProcessor, reached && enqueue.Done? && !complete.NotDone?)])
        && outbox == (if d.id !in old(inbox) && reached && !enqueue.NotDone?
                      then old(outbox) + [OutboxRow(ProfileChanged(id, d.accountId), createdAt)] else old(outbox))
    {
      hide Valid, Place;
      var ok := TryBeginDecision(w, q, ProfileJob(d));
      if !ok {
        return Duplicate;
      }
      if !accepted || !applied {
        Leave(w);
        return Thrown;
      }
      ok := ApplyAndAnnounce(w, d, id, createdAt, enqueue);
      if ok {
        ok := Complete(w, ProfileJob(d), complete);
      }
      outcome := if ok then Processed else Thrown;
    }
  }

  function CaseOf(d: DecisionEvent): OpenedCase {
    OpenedCase(d.accountId, d.verdict.score, d.verdict.level, Open)
  }

  function OpeningRow(d: DecisionEvent): HistoryRow {
    HistoryRow(d.transactionId, Open, Open)
  }

  /** How write `k` ends when write `failing` throws. */
  function AckOf(failing: nat, landed: bool, k: nat): Ack {
    if k != failing then Done else if landed then DoneButThrown else NotDone
  }

  /** How many of `total` writes take effect when write `failing` throws. */
  function Effective(failing: nat, landed: bool, total: nat): nat {
    if failing >= total then total else if landed then failing + 1 else failing
  }

  /** How many writes follow the claim: the completion of a replay, or save, enqueues and completion. */
  function Writes(e: RawEvent, decisions: map<string, Stored>, verdict: Option<Verdict>): nat {
    if TransactionOf(e) in decisions then 1
    else if verdict.None? then 0
    else Planned(verdict.value) + 2
  }

  /** The outbox rows among the first `done` writes of a processed transaction. */
  ghost function FirstRows(e: RawEvent, v: Verdict, ids: seq<EventId>, times: seq<int>, done: nat): seq<OutboxRow>
    requires |ids| == |times| == 3 && done <= Planned(v) + 2
  {
    var sent := if done == 0 then 0 else if done > Planned(v) then Planned(v) else done - 1;
    seq(sent, n requires 0 <= n < sent => OutboxRow(PayloadFor(e, v, n, ids[n]), times[n]))
  }

  /** All rows of a processed transaction: the alert exactly for what is not approved. */
  lemma AllRows(e: RawEvent, v: Verdict, ids: seq<EventId>, times: seq<int>)
    requires |ids| == |times| == 3
    ensures var t, account := Trim(e.transactionId), Trim(e.accountId);
      && TransactionOf(e) == t && StoredFor(e, v) == Stored(account, v)
      && FirstRows(e, v, ids, times, Planned(v) + 2) ==
           [OutboxRow(Validated(ids[0], e), times[0]), OutboxRow(Decision(DecisionEvent(ids[1], t, account, v)), times[1])]
           + if v.decision == Approve then [] else [OutboxRow(Alert(ids[2], t, account, v.decision, v.score), times[2])]
  {
    hide Trim;
  }

  /** Exactly the writes before the failing one take effect, and the failing one where it landed. */
  lemma WhatTakesEffect(failing: nat, landed: bool, total: nat, k: nat)
    requires k < total
    ensures k < Effective(failing, landed, total) <==> k < failing || (k == failing && landed)
    ensures AckOf(failing, landed, k).Done? <==> k != failing
  {
  }

  /** MAIN: while the events of a transaction lie in one partition, and partitions move only between records, the
      tables the handlers leave agree with what they announced, no event was handled twice, and every case descends
      from a stored decision. */
  lemma TablesAgree(db: Database)
    requires db.Valid() && CalmRun(Empty(db.partitionOf), db.trace) && OnePartition(db.Abs())
    ensures Agreed(db.Abs()) && Once(db.Abs())
    ensures forall t :: t in db.cases ==> CaseLineage.Lineage(db.Abs(), t)
  {
    hide Agreed, Once, CaseLineage.Lineage, CaseLineage.Traced, OnePartition, SerialRun, CalmRun;
    var start := Empty(db.partitionOf);
    CaseLineage.EmptyIsFine(db.partitionOf);
    CalmIsSerial(start, db.trace);
    EnteredAtMostOnce(start, db.trace);
    DecisionsAgree(start, db.trace);
    forall t | t in db.cases ensures CaseLineage.Lineage(db.Abs(), t) {
      CaseLineage.CasesHaveLineage(start, db.trace, t);
    }
  }

  /** The owner of the partition may fetch the record while its id is unclaimed. */
  lemma FetchEnabled(s: State, w: nat, i: nat)
    requires At(s, w).Idle? && i < |s.raw| && s.raw[i].valid
    requires PartitionOf(s, s.raw[i]) in s.owner && s.owner[PartitionOf(s, s.raw[i])] == w
    ensures s.raw[i].id !in s.inbox ==>
              Enabled(s, FetchRaw(w, i)) && Apply(s, FetchRaw(w, i)) == Put(s, w, Checked(RawJob(s.raw[i])))
  {
  }

  lemma FetchDecisionEnabled(s: State, w: nat, q: nat, job: Job)
    requires At(s, w).Idle? && !job.RawJob? && InTopic(s, q, job.decision)
    ensures job.decision.id !in s.inbox ==>
              Enabled(s, FetchDecision(w, q, job)) && Apply(s, FetchDecision(w, q, job)) == Put(s, w, Checked(job))
  {
  }
}
