/** One cycle of `OutboxDispatcher.ExecuteAsync` against the outbox table and the broker. */
module Dispatcher {
  import opened Contracts
  import opened Outbox

  class OutboxStore {
    var rows: seq<OutboxRow>
    var published: set<nat>
    var log: seq<nat>
    ghost var rest: State
    ghost var trace: seq<Step>

    /** The machine state: the table, the broker, and from `rest` the dispatchers and what is in flight. */
    ghost function Abs(): State
      reads this
    {
      rest.(rows := rows, published := published, log := log)
    }

    /** The table and the broker are where the run `trace` of the dispatcher machine leads. */
    ghost predicate Valid()
      reads this
    {
      ValidRun(EMPTY, trace) && Abs() == Run(EMPTY, trace)
    }

    constructor ()
      ensures Valid() && trace == [] && Abs() == EMPTY
    {
      rows, published, log := [], {}, [];
      rest, trace := EMPTY, [];
    }

    /** The ghost half of a step; the caller writes the table or the broker. */
    ghost method Record(step: Step, s: State)
      requires ValidRun(EMPTY, trace) && Enabled(Run(EMPTY, trace), step) && s == Apply(Run(EMPTY, trace), step)
      modifies this`rest, this`trace
      ensures rest == s && trace == old(trace) + [step]
      ensures ValidRun(EMPTY, trace) && Run(EMPTY, trace) == s
    {
      RunSnoc(EMPTY, trace, step);
      rest, trace := s, trace + [step];
    }

    method Enqueue(row: OutboxRow)
      requires Valid()
      modifies this
      ensures Valid() && trace == old(trace) + [Step.Enqueue(row)]
      ensures rows == old(rows) + [row] && published == old(published) && log == old(log)
    {
      ghost var s := Apply(Abs(), Step.Enqueue(row));
      rows := rows + [row];
      Record(Step.Enqueue(row), s);
    }

    /** One `PublishAsync` that the broker acknowledges. */
    method Publish(ghost d: nat, k: nat)
      requires Valid() && At(rest, d).Publishing? && At(rest, d).sent < |At(rest, d).batch|
      requires At(rest, d).batch[At(rest, d).sent] == k
      modifies this`log, this`rest, this`trace
      ensures Valid() && trace == old(trace) + [Step.Publish(d)] && log == old(log) + [k]
      ensures At(rest, d) == Publishing(old(At(rest, d)).batch, old(At(rest, d)).sent + 1)
    {
      ghost var s := Apply(Abs(), Step.Publish(d));
      log := log + [k];
      Record(Step.Publish(d), s);
    }

    method MarkPublished(ghost d: nat, ids: seq<nat>)
      requires Valid() && At(rest, d) == Publishing(ids, |ids|)
      modifies this`published, this`rest, this`trace
      ensures Valid() && trace == old(trace) + [Mark(d)] && At(rest, d).Idle?
      ensures published == old(published) + set k | k in ids
    {
      ghost var s := Apply(Abs(), Mark(d));
      published := published + set k | k in ids;
      Record(Mark(d), s);
    }

    /** `DequeueBatchAsync` hands the batch to dispatcher `d`. */
    ghost method Take(d: nat, batch: seq<nat>)
      requires Valid() && At(rest, d).Idle? && batch != [] && IsBatch(Abs(), batch)
      modifies this`rest, this`trace
      ensures Valid() && old(trace) <= trace && At(rest, d) == Publishing(batch, 0)
    {
      Record(Dequeue(d, batch), Apply(Abs(), Dequeue(d, batch)));
    }

    /** A publish throws; the broker may still append it later. */
    ghost method Lose(d: nat)
      requires Valid() && At(rest, d).Publishing? && At(rest, d).sent < |At(rest, d).batch|
      modifies this`rest, this`trace
      ensures Valid() && old(trace) <= trace && At(rest, d).Idle?
    {
      Record(PublishFails(d), Apply(Abs(), PublishFails(d)));
    }

    /** An exception ends the turn. */
    ghost method Abandon(d: nat)
      requires Valid()
      modifies this`rest, this`trace
      ensures Valid() && old(trace) <= trace && At(rest, d).Idle?
    {
      Record(Crash(d), Apply(Abs(), Crash(d)));
    }

    /**
     One turn of the loop. `batch` is the database's answer to `DequeueBatchAsync(50)`. The publish of item `failing`
     throws, if there is one, and then nothing is marked and what was sent stays sent; one past the last item it
     is the marking that throws, which takes effect all the same where `landed` says so.
     */
    method DispatchOnce(ghost d: nat, batch: seq<nat>, failing: nat, landed: bool) returns (ok: bool)
      requires Valid() && At(rest, d).Idle? && IsBatch(Abs(), batch)
      modifies this
      ensures Valid() && old(trace) <= trace && At(rest, d).Idle?
      ensures rows == old(rows) && ok == (batch == [] || failing > |batch|)
      ensures published == if failing > |batch| || (failing == |batch| && landed)
                           then old(published) + (set k | k in batch) else old(published)
      ensures log == old(log) + if failing < |batch| then batch[..failing] else batch
    {
      hide Valid, IsBatch, At;
      if |batch| == 0 {
        assert (set k | k in batch) == {};
        return true;
      }
      Take(d, batch);
      var sent := [];
      for i := 0 to |batch|
        invariant Valid() && old(trace) <= trace && rows == old(rows) && published == old(published)
        invariant i <= failing && sent == batch[..i] && log == old(log) + batch[..i]
        invariant At(rest, d) == Publishing(batch, i)
      {
        if i == failing {
          Lose(d);
          return false;
        }
        Publish(d, batch[i]);
        sent := sent + [batch[i]];
      }
      assert batch[..|batch|] == batch;
      if failing == |batch| && !landed {
        Abandon(d);
      } else {
        MarkPublished(d, sent);
      }
      ok := failing != |batch|;
    }
  }

  /** MAIN: rows enqueued in strict CreatedAt order are published and marked in that order. */
  lemma StoreInOrder(store: OutboxStore)
    requires store.Valid() && CommitOrder(store.rows)
    ensures OrderVisible(store.Abs())
    ensures forall k :: k in store.published ==> k in store.log
  {
    CommitOrderIsTimely(EMPTY, store.trace);
    PublicationOrder(EMPTY, store.trace);
  }
}
