/**
 The transactional outbox and its dispatchers.

 Any number of `OutboxDispatcher` loops work on one table. Every database call and every
 publish is one atomic step, and a dispatcher may die between any two of them.
 */
module Outbox {
  import opened Contracts

  const BATCH_SIZE := 50

  /** A dispatcher is between batches, or inside the foreach with `sent` items published. */
  datatype Dispatcher = Idle | Publishing(batch: seq<nat>, sent: nat)

  /**
   - `rows`: the table in commit order; a row is named by its index.
   - `published`: the rows whose `PublishedAt` is set.
   - `log`: every append to any topic, oldest first, as row indices.
   - `inFlight`: rows whose publish call failed on the client but may still reach the broker.
   */
  datatype State = State(
    rows: seq<OutboxRow>,
    published: set<nat>,
    log: seq<nat>,
    inFlight: set<nat>,
    dispatchers: map<nat, Dispatcher>)

  const EMPTY := State([], {}, [], {}, map[])

  datatype Step =
    | Enqueue(row: OutboxRow)
    | Dequeue(d: nat, batch: seq<nat>)
    | Publish(d: nat)
    | PublishFails(d: nat)
    | LateAppend(k: nat)
    | Mark(d: nat)
    | Crash(d: nat)

  function At(s: State, d: nat): Dispatcher {
    if d in s.dispatchers then s.dispatchers[d] else Idle
  }

  ghost predicate Unpublished(s: State, k: nat) {
    k < |s.rows| && k !in s.published
  }

  predicate Older(rows: seq<OutboxRow>, j: nat, k: nat) {
    j < |rows| && k < |rows| && rows[j].createdAt < rows[k].createdAt
  }

  /** What `DequeueBatchAsync(50)` may return: unpublished rows ordered by `CreatedAt`, ties in
      any order, cut after fifty. */
  ghost predicate IsBatch(s: State, batch: seq<nat>) {
    && |batch| <= BATCH_SIZE
    && (forall i :: 0 <= i < |batch| ==> Unpublished(s, batch[i]))
    && (forall i, j :: 0 <= i < j < |batch| ==>
          batch[i] != batch[j] && s.rows[batch[i]].createdAt <= s.rows[batch[j]].createdAt)
    && (forall k: nat :: Unpublished(s, k) && k !in batch ==>
          |batch| == BATCH_SIZE && forall i :: 0 <= i < |batch| ==> s.rows[batch[i]].createdAt <= s.rows[k].createdAt)
  }

  /** A batch holds at most fifty rows, all unpublished, from the oldest on; fewer only if there are no more. */
  lemma BatchMeaning(s: State, batch: seq<nat>)
    requires IsBatch(s, batch)
    ensures |batch| <= 50
    ensures forall k :: k in batch ==> k < |s.rows| && k !in s.published
    ensures forall i, j :: 0 <= i < j < |batch| ==>
              batch[i] != batch[j] && s.rows[batch[i]].createdAt <= s.rows[batch[j]].createdAt
    ensures |batch| < 50 ==> forall k: nat :: k < |s.rows| && k !in s.published ==> k in batch
    ensures forall k: nat, b: nat :: k < |s.rows| && k !in s.published && k !in batch && b in batch ==>
              s.rows[b].createdAt <= s.rows[k].createdAt
  {
    forall k: nat | k < |s.rows| && k !in s.published ensures Unpublished(s, k) {
    }
  }

  ghost predicate Enabled(s: State, step: Step) {
    match step
    case Enqueue(_) => true
    case Dequeue(d, batch) => At(s, d).Idle? && batch != [] && IsBatch(s, batch)
    case Publish(d) => At(s, d).Publishing? && At(s, d).sent < |At(s, d).batch|
    case PublishFails(d) => At(s, d).Publishing? && At(s, d).sent < |At(s, d).batch|
    case LateAppend(k) => k in s.inFlight
    case Mark(d) => At(s, d).Publishing? && At(s, d).sent == |At(s, d).batch|
    case Crash(_) => true
  }

  ghost function Apply(s: State, step: Step): State
    requires Enabled(s, step)
  {
    match step
    case Enqueue(row) => s.(rows := s.rows + [row])
    case Dequeue(d, batch) => s.(dispatchers := s.dispatchers[d := Publishing(batch, 0)])
    case Publish(d) =>
      var Publishing(batch, sent) := At(s, d);
      s.(log := s.log + [batch[sent]], dispatchers := s.dispatchers[d := Publishing(batch, sent + 1)])
    case PublishFails(d) =>
      var Publishing(batch, sent) := At(s, d);
      s.(inFlight := s.inFlight + {batch[sent]}, dispatchers := s.dispatchers[d := Idle])
    case LateAppend(k) => s.(log := s.log + [k])
    case Mark(d) =>
      s.(published := s.published + (set k | k in At(s, d).batch), dispatchers := s.dispatchers[d := Idle])
    case Crash(d) => s.(dispatchers := s.dispatchers[d := Idle])
  }

  ghost predicate ValidRun(s: State, steps: seq<Step>)
    decreases |steps|
  {
    steps == [] ||
    (Enabled(s, steps[0]) && ValidRun(Apply(s, steps[0]), steps[1..]))
  }

  ghost function Run(s: State, steps: seq<Step>): State
    requires ValidRun(s, steps)
    decreases |steps|
  {
    if steps == [] then s else Run(Apply(s, steps[0]), steps[1..])
  }

  lemma {:induction false} RunSnoc(s: State, steps: seq<Step>, step: Step)
    requires ValidRun(s, steps) && Enabled(Run(s, steps), step)
    ensures ValidRun(s, steps + [step]) && Run(s, steps + [step]) == Apply(Run(s, steps), step)
    decreases |steps|
  {
    if steps == [] {
      assert ValidRun(Apply(s, step), []) && (steps + [step])[1..] == [];
    } else {
      RunSnoc(Apply(s, steps[0]), steps[1..], step);
      assert (steps + [step])[1..] == steps[1..] + [step];
    }
  }

  // ---- Safety that needs no hypothesis ----

  /** Nothing is published that is not a row, and nothing is marked that is not in the log. */
  ghost predicate Sound(s: State) {
    && (forall k :: k in s.log || k in s.inFlight || k in s.published ==> k < |s.rows|)
    && (forall k :: k in s.published ==> k in s.log)
    && forall d :: At(s, d).Publishing? ==>
         var Publishing(batch, sent) := At(s, d);
         && sent <= |batch|
         && (forall i :: 0 <= i < |batch| ==> batch[i] < |s.rows|)
         && (forall i :: 0 <= i < sent ==> batch[i] in s.log)
  }

  lemma SoundStep(s: State, step: Step)
    requires Sound(s) && Enabled(s, step)
    ensures Sound(Apply(s, step))
  {
    var s' := Apply(s, step);
    forall d | At(s', d).Publishing?
      ensures var Publishing(batch, sent) := At(s', d);
              && sent <= |batch|
              && (forall i :: 0 <= i < |batch| ==> batch[i] < |s'.rows|)
              && (forall i :: 0 <= i < sent ==> batch[i] in s'.log)
    {
      if At(s', d) == At(s, d) {
      } else if step.Publish? {
        var Publishing(batch, sent) := At(s, d);
        assert s'.log[|s.log|] == batch[sent];
      }
    }
    if step.LateAppend? {
      assert s'.log[|s.log|] == step.k;
    }
  }

  // ---- The publication order ----

  /** Older rows are marked before newer ones: the marked rows are a prefix of the CreatedAt order. */
  ghost predicate MarkedPrefix(s: State) {
    forall j, k :: k in s.published && Older(s.rows, j, k) ==> j in s.published
  }

  /** Whenever a row is appended, every older row has been appended before it. */
  ghost predicate FirstAppearancesInOrder(s: State) {
    forall q, j :: 0 <= q < |s.log| && Older(s.rows, j, s.log[q]) ==> j in s.log[..q]
  }

  /** `k` has left the table at least once: logged, in flight, or in some dispatcher's hands. */
  ghost predicate Touched(s: State, k: nat) {
    || k in s.log
    || k in s.inFlight
    || k in s.published
    || exists d :: At(s, d).Publishing? && k in At(s, d).batch
  }

  /** The row is not created before a row some dispatcher has already taken. */
  ghost predicate Timely(s: State, row: OutboxRow) {
    forall k: nat :: k < |s.rows| && Touched(s, k) ==> s.rows[k].createdAt <= row.createdAt
  }

  ghost predicate BatchClosed(s: State, batch: seq<nat>) {
    forall i, j :: 0 <= i < |batch| && Older(s.rows, j, batch[i]) ==> j in s.published || j in batch[..i]
  }

  ghost predicate Ordered(s: State) {
    && Sound(s)
    && MarkedPrefix(s)
    && FirstAppearancesInOrder(s)
    && (forall d :: At(s, d).Publishing? ==> BatchClosed(s, At(s, d).batch))
    && (forall j, k :: k in s.inFlight && Older(s.rows, j, k) ==> j in s.log)
  }

  ghost predicate TimelyRun(s: State, steps: seq<Step>)
    requires ValidRun(s, steps)
    decreases |steps|
  {
    steps == [] ||
    ((steps[0].Enqueue? ==> Timely(s, steps[0].row)) && TimelyRun(Apply(s, steps[0]), steps[1..]))
  }

  lemma EnqueueKeepsOrder(s: State, row: OutboxRow)
    requires Ordered(s) && Timely(s, row)
    ensures Ordered(Apply(s, Enqueue(row)))
  {
    var s' := Apply(s, Enqueue(row));
    SoundStep(s, Enqueue(row));
    assert forall j: nat, k: nat :: Older(s'.rows, j, k) && k < |s.rows| && Touched(s, k) ==> Older(s.rows, j, k);
    forall d | At(s', d).Publishing?
      ensures BatchClosed(s', At(s', d).batch)
    {
      var batch := At(s, d).batch;
      forall i | 0 <= i < |batch| ensures Touched(s, batch[i]) {}
    }
    forall q, j | 0 <= q < |s'.log| && Older(s'.rows, j, s'.log[q])
      ensures j in s'.log[..q]
    {
      assert Touched(s, s.log[q]);
    }
  }

  lemma BatchIsClosed(s: State, batch: seq<nat>)
    requires IsBatch(s, batch)
    ensures BatchClosed(s, batch)
  {
    forall i, j: nat | 0 <= i < |batch| && Older(s.rows, j, batch[i]) && j !in s.published
      ensures j in batch[..i]
    {
      assert Unpublished(s, j);
      var at :| 0 <= at < |batch| && batch[at] == j;
      assert at < i;
      assert batch[..i][at] == j;
    }
  }

  lemma DequeueKeepsOrder(s: State, d: nat, batch: seq<nat>)
    requires Ordered(s) && Enabled(s, Dequeue(d, batch))
    ensures Ordered(Apply(s, Dequeue(d, batch)))
  {
    var s' := Apply(s, Dequeue(d, batch));
    SoundStep(s, Dequeue(d, batch));
    assert BatchClosed(s, batch) by { BatchIsClosed(s, batch); }
    forall e | At(s', e).Publishing? ensures BatchClosed(s', At(s', e).batch) {
      assert e != d ==> BatchClosed(s, At(s, e).batch);
    }
  }

  /** Appending a row all of whose elders are logged keeps the order of first appearances. */
  lemma AppendKeepsOrder(s: State, k: nat)
    requires FirstAppearancesInOrder(s)
    requires forall j :: Older(s.rows, j, k) ==> j in s.log
    ensures FirstAppearancesInOrder(s.(log := s.log + [k]))
  {
    var log' := s.log + [k];
    forall q, j | 0 <= q < |log'| && Older(s.rows, j, log'[q])
      ensures j in log'[..q]
    {
      assert log'[..q] == s.log[..q];
      if q == |s.log| {
        assert s.log[..q] == s.log;
      }
    }
  }

  lemma OrderedStep(s: State, step: Step)
    requires Ordered(s) && Enabled(s, step)
    requires step.Enqueue? ==> Timely(s, step.row)
    ensures Ordered(Apply(s, step))
  {
    var s' := Apply(s, step);
    SoundStep(s, step);
    if !step.Enqueue? && !step.Dequeue? {
      forall e | At(s', e).Publishing? ensures BatchClosed(s', At(s', e).batch) {
        assert At(s', e).batch == At(s, e).batch && BatchClosed(s, At(s, e).batch);
      }
    }
    match step
    case Enqueue(row) => EnqueueKeepsOrder(s, row);
    case Dequeue(d, batch) => DequeueKeepsOrder(s, d, batch);
    case Publish(d) =>
      var Publishing(batch, sent) := At(s, d);
      forall j | Older(s.rows, j, batch[sent]) ensures j in s.log {}
      AppendKeepsOrder(s, batch[sent]);
    case PublishFails(d) =>
      var Publishing(batch, sent) := At(s, d);
      forall j | Older(s.rows, j, batch[sent]) ensures j in s.log {}
    case LateAppend(k) =>
      AppendKeepsOrder(s, k);
    case Mark(d) =>
      var Publishing(batch, sent) := At(s, d);
      forall j, k | k in s'.published && Older(s'.rows, j, k) ensures j in s'.published {
        if k !in s.published {
          var i :| 0 <= i < |batch| && batch[i] == k;
          assert j in s.published || j in batch[..i];
        }
      }
    case Crash(d) =>
  }

  /** MAIN: with any number of dispatchers, crashes anywhere and publishes that fail or arrive
      late, the marked rows stay a prefix of the CreatedAt order, every marked row is in the log,
      and first appearances follow CreatedAt. */
  lemma {:induction false} PublicationOrder(s: State, steps: seq<Step>)
    requires Ordered(s) && ValidRun(s, steps) && TimelyRun(s, steps)
    ensures var s' := Run(s, steps);
            && Ordered(s')
            && MarkedPrefix(s')
            && FirstAppearancesInOrder(s')
            && forall k :: k in s'.published ==> k in s'.log
    decreases |steps|
  {
    if steps != [] {
      OrderedStep(s, steps[0]);
      PublicationOrder(Apply(s, steps[0]), steps[1..]);
    }
  }

  // ---- When the hypothesis holds, and that it is the exact one ----

  /** Rows commit in strict CreatedAt order. */
  ghost predicate CommitOrder(rows: seq<OutboxRow>) {
    forall i, j :: 0 <= i < j < |rows| ==> rows[i].createdAt < rows[j].createdAt
  }

  lemma {:induction false} RowsOnlyGrow(s: State, steps: seq<Step>)
    requires ValidRun(s, steps)
    ensures s.rows <= Run(s, steps).rows
    decreases |steps|
  {
    if steps != [] {
      RowsOnlyGrow(Apply(s, steps[0]), steps[1..]);
    }
  }

  /** Commits in strict CreatedAt order are timely, so `PublicationOrder` applies to them. */
  lemma {:induction false} CommitOrderIsTimely(s: State, steps: seq<Step>)
    requires ValidRun(s, steps) && CommitOrder(Run(s, steps).rows)
    ensures TimelyRun(s, steps)
    decreases |steps|
  {
    if steps != [] {
      var s' := Apply(s, steps[0]);
      CommitOrderIsTimely(s', steps[1..]);
      RowsOnlyGrow(s', steps[1..]);
      var final := Run(s, steps).rows;
      assert s'.rows <= final;
      if steps[0].Enqueue? {
        assert final[|s.rows|] == steps[0].row;
        assert forall k :: 0 <= k < |s.rows| ==> s.rows[k] == final[k];
      }
    }
  }

  ghost predicate DispatchOnly(steps: seq<Step>) {
    forall i :: 0 <= i < |steps| ==> !steps[i].Enqueue?
  }

  ghost predicate OrderVisible(s: State) {
    MarkedPrefix(s) && FirstAppearancesInOrder(s)
  }

  /** A dispatcher that still holds `batch[i]` can publish up to it while `r` is not in the log. */
  lemma PublishPast(s: State, d: nat, i: nat, r: nat) returns (steps: seq<Step>)
    requires At(s, d).Publishing? && At(s, d).sent <= i < |At(s, d).batch|
    requires r !in s.log && r !in At(s, d).batch && Older(s.rows, r, At(s, d).batch[i])
    ensures ValidRun(s, steps) && DispatchOnly(steps) && !OrderVisible(Run(s, steps))
    decreases i - At(s, d).sent
  {
    var Publishing(batch, sent) := At(s, d);
    var s' := Apply(s, Publish(d));
    if sent == i {
      steps := [];
      assert s'.log[|s.log|] == batch[i] && r !in s'.log[..|s.log|];
    } else {
      steps := PublishPast(s', d, i, r);
    }
    steps := [Publish(d)] + steps;
    assert steps[1..] == steps[1..];
    assert ValidRun(s', steps[1..]);
  }

  lemma LateCommitBreaksOrder(s: State, row: OutboxRow) returns (steps: seq<Step>)
    requires Ordered(s) && !Timely(s, row)
    ensures ValidRun(Apply(s, Enqueue(row)), steps) && DispatchOnly(steps)
    ensures !OrderVisible(Run(Apply(s, Enqueue(row)), steps))
  {
    var s1, r := Apply(s, Enqueue(row)), |s.rows|;
    var k: nat :| k < |s.rows| && Touched(s, k) && s.rows[k].createdAt > row.createdAt;
    assert Older(s1.rows, r, k);
    if k in s.log {
      var q :| 0 <= q < |s.log| && s.log[q] == k;
      assert r !in s1.log;
      steps := [];
      assert Older(s1.rows, r, s1.log[q]) && r !in s1.log[..q];
    } else if k in s.inFlight {
      steps := [LateAppend(k)];
      var s2 := Apply(s1, LateAppend(k));
      assert s2.log[|s.log|] == k && r !in s2.log[..|s.log|];
    } else {
      var d :| At(s, d).Publishing? && k in At(s, d).batch;
      var i :| 0 <= i < |At(s, d).batch| && At(s, d).batch[i] == k;
      steps := PublishPast(s1, d, i, r);
    }
  }

  lemma {:induction false} DispatchOnlyIsTimely(s: State, steps: seq<Step>)
    requires ValidRun(s, steps) && DispatchOnly(steps)
    ensures TimelyRun(s, steps)
    decreases |steps|
  {
    if steps != [] {
      DispatchOnlyIsTimely(Apply(s, steps[0]), steps[1..]);
    }
  }

  /** MAIN: the hypothesis is exact. A commit keeps the order in every continuation by the
      dispatchers if and only if it is timely. */
  lemma CommitKeepsOrderIffTimely(s: State, row: OutboxRow)
    requires Ordered(s)
    ensures Timely(s, row) <==>
            forall steps :: ValidRun(Apply(s, Enqueue(row)), steps) && DispatchOnly(steps) ==>
              OrderVisible(Run(Apply(s, Enqueue(row)), steps))
  {
    var s1 := Apply(s, Enqueue(row));
    if Timely(s, row) {
      EnqueueKeepsOrder(s, row);
      forall steps | ValidRun(s1, steps) && DispatchOnly(steps)
        ensures OrderVisible(Run(s1, steps))
      {
        DispatchOnlyIsTimely(s1, steps);
        PublicationOrder(s1, steps);
      }
    } else {
      var steps := LateCommitBreaksOrder(s, row);
    }
  }

  // ---- One topic's log ----

  ghost predicate RowsExist(rows: seq<OutboxRow>, log: seq<nat>) {
    forall q :: 0 <= q < |log| ==> log[q] < |rows|
  }

  /** The appends to one topic, oldest first. */
  ghost function TopicLog(rows: seq<OutboxRow>, log: seq<nat>, topic: Topic): seq<nat>
    requires RowsExist(rows, log)
  {
    if log == [] then []
    else
      var rest := TopicLog(rows, log[..|log| - 1], topic);
      var k := log[|log| - 1];
      if TopicOf(rows[k].payload) == topic then rest + [k] else rest
  }

  lemma {:induction false} TopicLogHolds(rows: seq<OutboxRow>, log: seq<nat>, topic: Topic, k: nat)
    requires RowsExist(rows, log)
    ensures k in TopicLog(rows, log, topic) <==> k in log && TopicOf(rows[k].payload) == topic
  {
    if log != [] {
      assert log == log[..|log| - 1] + [log[|log| - 1]];
      TopicLogHolds(rows, log[..|log| - 1], topic, k);
    }
  }

  /** MAIN: within one topic, whenever a row appears every older row of that topic has appeared. */
  lemma {:induction false} TopicOrder(rows: seq<OutboxRow>, log: seq<nat>, topic: Topic, q: nat, j: nat)
    requires RowsExist(rows, log)
    requires forall q, j :: 0 <= q < |log| && Older(rows, j, log[q]) ==> j in log[..q]
    requires q < |TopicLog(rows, log, topic)| && Older(rows, j, TopicLog(rows, log, topic)[q])
    requires TopicOf(rows[j].payload) == topic
    ensures j in TopicLog(rows, log, topic)[..q]
  {
    var n := |log| - 1;
    var before := log[..n];
    var rest := TopicLog(rows, before, topic);
    if q < |rest| {
      forall q, j | 0 <= q < |before| && Older(rows, j, before[q]) ensures j in before[..q] {
        assert before[..q] == log[..q];
      }
      TopicOrder(rows, before, topic, q, j);
      assert TopicLog(rows, log, topic)[..q] == rest[..q];
    } else {
      assert j in before;
      TopicLogHolds(rows, before, topic, j);
      assert TopicLog(rows, log, topic)[..q] == rest;
    }
  }
}
