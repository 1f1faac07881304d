/** What a crash between the decision row and the outbox costs, and exactly when it costs it. */
module LostAnnouncements {
  import opened Text
  import opened Contracts
  import opened DecisionPolicy
  import opened Delivery
  import PartitionHazard
  import O = Outbox

  /** The worker is between the save of `t` and its last enqueue. */
  predicate Announcing(worker: Worker, t: string) {
    worker.Queueing? && TransactionOf(worker.event) == t
  }

  /** The worker has seen that `t` has no decision and has not saved one. */
  predicate Deciding(worker: Worker, t: string) {
    (worker.Fresh? || worker.Scored?) && TransactionOf(worker.event) == t
  }

  /** The decision of `t` is stored and nobody will enqueue an event about it. */
  ghost predicate Silent(s: State, t: string) {
    t in s.decisions && forall w :: !Announcing(At(s, w), t) && !Deciding(At(s, w), t)
  }

  /** Only who is deciding starts to announce, and nobody starts to decide on a stored decision. */
  lemma SilentWorker(s: State, step: Step, w: nat, t: string)
    requires t in s.decisions && Enabled(s, step)
    requires !Announcing(At(s, w), t) && !Deciding(At(s, w), t)
    ensures !Announcing(At(Apply(s, step), w), t) && !Deciding(At(Apply(s, step), w), t)
  {
    hide O.Apply, O.Enabled, Trim, PayloadFor, Consistent, NeedsAnalyst, PartitionOf;
  }

  lemma SilentStep(s: State, step: Step, t: string)
    requires Silent(s, t) && Enabled(s, step)
    ensures Silent(Apply(s, step), t)
    ensures Shapes(Apply(s, step).outbox.rows, t) == Shapes(s.outbox.rows, t)
    ensures Apply(s, step).decisions[t] == s.decisions[t]
  {
    hide Shapes, Plan, Announcing, Deciding, Apply, Enabled;
    var s' := Apply(s, step);
    DecisionsStay(s, step);
    forall w ensures !Announcing(At(s', w), t) && !Deciding(At(s', w), t) {
      SilentWorker(s, step, w, t);
    }
    SilentRows(s, step, t);
  }

  lemma SilentRows(s: State, step: Step, t: string)
    requires Silent(s, t) && Enabled(s, step)
    ensures Shapes(Apply(s, step).outbox.rows, t) == Shapes(s.outbox.rows, t)
  {
    hide Shapes, Plan;
    match step
    case EnqueueNext(w, id, createdAt) =>
      var Queueing(e, v, n) := At(s, w);
      assert !Announcing(At(s, w), t);
      EnqueueAppends(s.outbox.rows, e, v, n, id, createdAt, t);
    case EnqueueProfile(w, id, createdAt) =>
      ShapesSnoc(s.outbox.rows, OutboxRow(ProfileChanged(id, At(s, w).decision.accountId), createdAt), t);
    case _ =>
      DispatchKeepsRows(s, step);
  }

  /** MAIN: once the decision is stored and its handler is gone, no run adds anything to what was announced, wherever
      partitions move and whatever else is produced. */
  lemma {:induction false} NothingMoreIsAnnounced(s: State, steps: seq<Step>, t: string)
    requires Silent(s, t) && ValidRun(s, steps)
    ensures Silent(Run(s, steps), t)
    ensures Shapes(Run(s, steps).outbox.rows, t) == Shapes(s.outbox.rows, t)
    decreases |steps|
  {
    hide Apply, Enabled, Shapes, Silent;
    if steps != [] {
      SilentStep(s, steps[0], t);
      NothingMoreIsAnnounced(Apply(s, steps[0]), steps[1..], t);
    }
  }

  // ---- Exactly when an announcement can still be finished ----

  ghost predicate Complete(s: State, d: Stored, t: string) {
    Shapes(s.outbox.rows, t) == Plan(d)
  }

  ghost predicate OnlyEnqueues(steps: seq<Step>) {
    forall i :: 0 <= i < |steps| ==> steps[i].EnqueueNext?
  }

  /** A handler that still has events to enqueue can enqueue them all. */
  lemma {:induction false} FinishAnnouncing(s: State, w: nat) returns (steps: seq<Step>)
    requires At(s, w).Queueing? && At(s, w).sent < Planned(At(s, w).verdict)
    requires var Queueing(e, v, n) := At(s, w);
             Shapes(s.outbox.rows, TransactionOf(e)) == Plan(StoredFor(e, v))[..n]
    ensures ValidRun(s, steps) && OnlyEnqueues(steps)
    ensures var Queueing(e, v, n) := At(s, w);
            Complete(Run(s, steps), StoredFor(e, v), TransactionOf(e))
    decreases Planned(At(s, w).verdict) - At(s, w).sent
  {
    hide Shapes, Plan, StoredFor, TransactionOf, PayloadFor;
    var Queueing(e, v, n) := At(s, w);
    var step := EnqueueNext(w, 0, 0);
    var s' := Apply(s, step);
    var plan := Plan(StoredFor(e, v));
    EnqueueAppends(s.outbox.rows, e, v, n, 0, 0, TransactionOf(e));
    PlanLength(StoredFor(e, v));
    assert (StoredFor(e, v)).verdict == v by { StoredVerdict(e, v); }
    assert plan[..n] + [plan[n]] == plan[..n + 1];
    var rest := [];
    if n + 1 < Planned(v) {
      rest := FinishAnnouncing(s', w);
    } else {
      assert plan[..n + 1] == plan;
    }
    steps := [step] + rest;
    assert steps[1..] == rest && ValidRun(s', rest);
  }

  lemma StoredVerdict(e: RawEvent, v: Verdict)
    ensures StoredFor(e, v).verdict == v
  {
  }

  /** MAIN: a stored decision can still be announced in full if and only if it has been, or its handler is still
      between the save and the last enqueue. */
  lemma AnnouncementFinishesIff(s: State, t: string)
    requires Orderly(s) && t in s.decisions
    ensures (Complete(s, s.decisions[t], t) || exists w :: Announcing(At(s, w), t)) <==>
            (exists steps :: ValidRun(s, steps) && Complete(Run(s, steps), s.decisions[t], t))
    ensures (exists w :: Announcing(At(s, w), t)) ==>
              exists steps :: ValidRun(s, steps) && OnlyEnqueues(steps) && Complete(Run(s, steps), s.decisions[t], t)
  {
    hide Shapes, Plan, Run, ValidRun;
    if w :| Announcing(At(s, w), t) {
      assert Placed(s, At(s, w));
      var steps := FinishAnnouncing(s, w);
    } else {
      assert Silent(s, t) by {
        forall w ensures !Deciding(At(s, w), t) {
          assert Placed(s, At(s, w));
        }
      }
      forall steps | ValidRun(s, steps)
        ensures Complete(Run(s, steps), s.decisions[t], t) <==> Complete(s, s.decisions[t], t)
      {
        NothingMoreIsAnnounced(s, steps, t);
      }
      RunOfNothing(s);
    }
  }

  lemma RunOfNothing(s: State)
    ensures ValidRun(s, []) && Run(s, []) == s
  {
  }

  // ---- A crash that leaves a stored decision unannounced ----

  /** MAIN: for every accepted event and every verdict there is a run, one crash in it, after which the decision is
      stored and no continuation ever announces it. */
  lemma CrashAfterSave(partitionOf: string -> nat, e: RawEvent, v: Verdict) returns (steps: seq<Step>)
    requires e.valid && Consistent(v)
    ensures var start := PartitionHazard.Start(partitionOf, [e]);
            && ValidRun(start, steps)
            && Run(start, steps).decisions == map[TransactionOf(e) := StoredFor(e, v)]
            && forall more :: ValidRun(Run(start, steps), more) ==>
                 Shapes(Run(Run(start, steps), more).outbox.rows, TransactionOf(e)) == []
  {
    hide Run, ValidRun, PartitionHazard.NoProduce, Trim;
    var s;
    steps, s := SaveThenCrash(partitionOf, e, v);
    forall more | ValidRun(s, more)
      ensures Shapes(Run(s, more).outbox.rows, TransactionOf(e)) == []
    {
      NothingMoreIsAnnounced(s, more, TransactionOf(e));
    }
  }

  lemma SaveThenCrash(partitionOf: string -> nat, e: RawEvent, v: Verdict) returns (steps: seq<Step>, s: State)
    requires e.valid && Consistent(v)
    ensures var start := PartitionHazard.Start(partitionOf, [e]);
            && ValidRun(start, steps) && PartitionHazard.NoProduce(steps) && s == Run(start, steps)
            && s.decisions == map[TransactionOf(e) := StoredFor(e, v)]
            && s.outbox == O.EMPTY && Silent(s, TransactionOf(e))
  {
    hide Run, ValidRun, PartitionHazard.NoProduce, CalmRun, O.Apply, O.Enabled, Trim, Consistent, PayloadFor;
    var start := PartitionHazard.Start(partitionOf, [e]);
    steps, s := UpToScoring(partitionOf, e);
    steps, s := PartitionHazard.Then(start, steps, Evaluate(0, v));
    steps, s := PartitionHazard.Then(start, steps, Save(0));
    steps, s := PartitionHazard.Then(start, steps, Crash(0));
  }

  /** The event is claimed by the worker of its partition, and no decision is found. */
  lemma UpToScoring(partitionOf: string -> nat, e: RawEvent) returns (steps: seq<Step>, s: State)
    requires e.valid
    ensures var start := PartitionHazard.Start(partitionOf, [e]);
            && ValidRun(start, steps) && PartitionHazard.NoProduce(steps) && s == Run(start, steps)
            && s == start.(owner := map[partitionOf(e.accountId) := 0], workers := map[0 := Fresh(e)],
                           inbox := map[e.id := InboxRow(TransactionProcessor, false)],
                           entered := [Entrance(e.id, TransactionProcessor)])
            && CalmRun(start, steps)
  {
    hide Run, ValidRun, PartitionHazard.NoProduce, CalmRun, O.Apply, O.Enabled, Trim, Consistent, PayloadFor;
    var start := PartitionHazard.Start(partitionOf, [e]);
    PartitionHazard.Nothing(start);
    steps, s := PartitionHazard.Then(start, [], Assign(partitionOf(e.accountId), 0));
    steps, s := PartitionHazard.Then(start, steps, FetchRaw(0, 0));
    steps, s := PartitionHazard.Then(start, steps, Claim(0));
    steps, s := PartitionHazard.Then(start, steps, CheckDecision(0));
    assert s.workers == map[0 := Fresh(e)];
  }
}
