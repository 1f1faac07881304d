/** The consume and commit loop of `KafkaConsumerHost.ExecuteAsync` on one partition. */
module PartitionConsumer {
  import opened Contracts
  import opened ConsumerHost

  /** What the outside does while the loop runs: the ends of handler calls, of dead-letter publishes and commits. */
  datatype Script = Script(calls: nat -> (nat -> Outcome), letters: nat -> Ack, commits: nat -> Ack)

  class Partition {
    const maxAttempts: int
    const delay: nat
    var log: seq<Record>
    var committed: nat
    var returned: set<nat>
    var letters: seq<Letter>
    ghost var rest: State
    ghost var trace: seq<Step>

    ghost function Abs(): State
      reads this
    {
      rest.(log := log, committed := committed, returned := returned, letters := letters)
    }

    /** The partition is where the run `trace` of the offset machine leads. */
    ghost predicate Valid()
      reads this
    {
      ValidRun(EMPTY, maxAttempts, trace) && Abs() == Run(EMPTY, maxAttempts, trace)
    }

    constructor (maxAttempts: int, delay: nat)
      ensures Valid() && trace == [] && Abs() == EMPTY
      ensures this.maxAttempts == maxAttempts && this.delay == delay
    {
      this.maxAttempts, this.delay := maxAttempts, delay;
      log, committed, returned, letters := [], 0, {}, [];
      rest, trace := EMPTY, [];
    }

    /** The ghost half of a step; the caller writes the fields. */
    ghost method Record(step: Step, s: State)
      requires ValidRun(EMPTY, maxAttempts, trace) && Enabled(Run(EMPTY, maxAttempts, trace), maxAttempts, step)
      requires s == Apply(Run(EMPTY, maxAttempts, trace), maxAttempts, step)
      modifies this`rest, this`trace
      ensures rest == s && trace == old(trace) + [step]
      ensures ValidRun(EMPTY, maxAttempts, trace) && Run(EMPTY, maxAttempts, trace) == s
    {
      RunSnoc(EMPTY, maxAttempts, trace, step);
      rest, trace := s, trace + [step];
    }

    method Append(record: ConsumerHost.Record)
      requires Valid()
      modifies this
      ensures Valid() && trace == old(trace) + [Step.Append(record)] && log == old(log) + [record]
      ensures committed == old(committed) && returned == old(returned) && letters == old(letters)
    {
      ghost var s := Apply(Abs(), maxAttempts, Step.Append(record));
      log := log + [record];
      Record(Step.Append(record), s);
    }

    /** One record through the retry loop, which makes `attempts` calls; `resolved` is false when the loop is left. */
    method Handle(ghost c: nat, offset: nat, script: Script) returns (resolved: bool, attempts: nat)
      requires Valid() && At(rest, c) == Processing(offset)
      modifies this`returned, this`letters, this`rest, this`trace
      ensures Valid() && old(trace) <= trace
      ensures At(rest, c) == if resolved then Resolved(offset) else Down
      ensures 1 <= attempts && (attempts <= maxAttempts || attempts == 1)
      ensures match script.calls(offset)(attempts)
        case Handled => resolved && returned == old(returned) + {offset} && letters == old(letters)
        case Cancelled => !resolved && returned == old(returned) && letters == old(letters)
        case Poison =>
          && resolved == script.letters(offset).Done? && returned == old(returned)
          && letters == (if script.letters(offset).NotDone? then old(letters)
                         else old(letters) + [Letter(offset, attempts, true)])
        case Transient =>
          && resolved == script.letters(offset).Done? && returned == old(returned) && attempts >= maxAttempts
          && letters == (if script.letters(offset).NotDone? then old(letters)
                         else old(letters) + [Letter(offset, attempts, false)])
    {
      var fate, waited;
      fate, attempts, waited := ProcessWithRetry(script.calls(offset), maxAttempts, delay);
      ghost var last := script.calls(offset)(attempts);
      ghost var s := Apply(Abs(), maxAttempts, Process(c, attempts, last));
      match fate {
        case Finished =>
          returned := returned + {offset};
          Record(Process(c, attempts, last), s);
          resolved := true;
        case Stopped =>
          Record(Process(c, attempts, last), s);
          resolved := false;
        case DeadLettered(poison) =>
          Record(Process(c, attempts, last), s);
          resolved := DeadLetter(c, Letter(offset, attempts, poison), script.letters(offset));
      }
    }

    /** `DeadLetterAsync` */
    method DeadLetter(ghost c: nat, letter: Letter, ack: Ack) returns (resolved: bool)
      requires Valid() && At(rest, c) == Burying(letter)
      modifies this`letters, this`rest, this`trace
      ensures Valid() && old(trace) <= trace && resolved == ack.Done?
      ensures letters == if ack.NotDone? then old(letters) else old(letters) + [letter]
      ensures At(rest, c) == if resolved then Resolved(letter.offset) else Down
    {
      ghost var step := Bury(c, !ack.NotDone?, !ack.Done?);
      ghost var s := Apply(Abs(), maxAttempts, step);
      if !ack.NotDone? {
        letters := letters + [letter];
      }
      Record(step, s);
      return ack.Done?;
    }

    method CommitOffset(ghost c: nat, offset: nat, ack: Ack) returns (ok: bool)
      requires Valid() && At(rest, c) == Resolved(offset)
      modifies this`committed, this`rest, this`trace
      ensures Valid() && old(trace) <= trace && ok == ack.Done?
      ensures committed == if ack.NotDone? then old(committed) else offset + 1
      ensures At(rest, c) == if ok then Polling(offset + 1) else Down
    {
      ghost var step := Commit(c, !ack.NotDone?, !ack.Done?);
      ghost var s := Apply(Abs(), maxAttempts, step);
      if !ack.NotDone? {
        committed := offset + 1;
      }
      Record(step, s);
      return ack.Done?;
    }

    method Fetch(ghost c: nat, position: nat) returns (hasValue: bool)
      requires Valid() && At(rest, c) == Polling(position) && position < |log|
      modifies this`rest, this`trace
      ensures Valid() && old(trace) <= trace && hasValue == log[position].Value?
      ensures At(rest, c) == if hasValue then Processing(position) else Polling(position + 1)
    {
      hasValue := log[position].Value?;
      Record(Poll(c), Apply(Abs(), maxAttempts, Poll(c)));
    }

    /**
     The loop, from the committed offset over all records there are. It is left early where a handler is
     cancelled or a publish or commit throws; a commit is made only after its record was resolved: what is
     newly taken for handled has a call that returned normally, and what has a value but no such call has a letter.
     */
    method ExecuteAsync(ghost c: nat, script: Script) returns (reachedEnd: bool)
      requires Valid() && At(rest, c).Down? && committed <= |log|
      modifies this`committed, this`returned, this`letters, this`rest, this`trace
      ensures Valid() && old(trace) <= trace
      ensures old(committed) <= committed <= |log|
      ensures forall k: nat :: k < committed ==> Settled(Abs(), k)
      ensures reachedEnd ==> forall k: nat :: k < |log| ==> Settled(Abs(), k)
      ensures Accounted(script, log, old(committed), committed, old(returned), returned, old(letters), letters)
    {
      hide Valid, SettledBelow, Settled, Sound, Accounted, At;
      ghost var from := committed;
      NothingYet(script, log, from, returned, letters);
      Begin(c);
      var position := committed;
      while position < |log|
        invariant Valid() && old(trace) <= trace
        invariant from <= committed <= position <= |log|
        invariant At(rest, c) == Polling(position)
        invariant Accounted(script, log, from, position, old(returned), returned, old(letters), letters)
      {
        var ok := ConsumeNext(c, position, script, from, old(returned), old(letters));
        if !ok {
          CommittedIsSettled(this, c);
          return false;
        }
        position := position + 1;
      }
      CommittedIsSettled(this, c);
      Fewer(script, log, from, committed, position, old(returned), returned, old(letters), letters);
      return true;
    }

    /** The body of the loop: fetch, handle, commit. */
    method ConsumeNext(ghost c: nat, position: nat, script: Script,
                       ghost from: nat, ghost returned0: set<nat>, ghost letters0: seq<Letter>)
      returns (ok: bool)
      requires Valid() && At(rest, c) == Polling(position) && from <= committed <= position < |log|
      requires Accounted(script, log, from, position, returned0, returned, letters0, letters)
      modifies this`committed, this`returned, this`letters, this`rest, this`trace
      ensures Valid() && old(trace) <= trace
      ensures old(committed) <= committed <= position + 1
      ensures Accounted(script, log, from, if ok then position + 1 else committed, returned0, returned, letters0, letters)
      ensures ok ==> At(rest, c) == Polling(position + 1)
    {
      hide Valid, Accounted;
      ghost var was, sent := returned, letters;
      var hasValue := Fetch(c, position);
      if !hasValue {
        NoValue(script, log, from, position, returned0, returned, letters0, letters);
        return true;
      }
      var resolved, attempts := Handle(c, position, script);
      OneDelivery(script, log, from, position, returned0, was, returned, letters0, sent, letters, attempts);
      if !resolved {
        Fewer(script, log, from, committed, position, returned0, returned, letters0, letters);
        return false;
      }
      ok := CommitOffset(c, position, script.commits(position));
      if !ok {
        Fewer(script, log, from, committed, position + 1, returned0, returned, letters0, letters);
      }
    }

    ghost method Begin(c: nat)
      requires Valid() && At(rest, c).Down?
      modifies this`rest, this`trace
      ensures Valid() && old(trace) <= trace && At(rest, c) == Polling(committed)
    {
      Record(Start(c), Apply(Abs(), maxAttempts, Start(c)));
    }
  }

  /** Some handler call for the record returns normally. */
  ghost predicate EverHandled(script: Script, offset: nat) {
    exists k: nat :: k >= 1 && script.calls(offset)(k) == Handled
  }

  ghost predicate Buried(letters: seq<Letter>, offset: nat) {
    exists i :: 0 <= i < |letters| && letters[i].offset == offset
  }

  /** Between two moments: what is newly taken for handled has a call that returned normally; of the records in
      `from..to`, each with a value but no such call has a new letter; and a new letter reports how its last
      call ended. */
  ghost predicate Accounted(script: Script, log: seq<Record>, from: nat, to: nat,
                            returned0: set<nat>, returned: set<nat>, letters0: seq<Letter>, letters: seq<Letter>)
  {
    && returned0 <= returned && letters0 <= letters
    && (forall o :: o in returned && o !in returned0 ==> EverHandled(script, o))
    && (forall o: nat :: from <= o < to && o < |log| && log[o].Value? && !EverHandled(script, o) ==>
          Buried(letters[|letters0|..], o))
    && (forall i :: |letters0| <= i < |letters| ==> ReportsEnd(script, letters[i]))
  }

  predicate ReportsEnd(script: Script, l: Letter) {
    script.calls(l.offset)(l.attempts) == if l.poison then Poison else Transient
  }

  lemma NothingYet(script: Script, log: seq<Record>, from: nat, returned: set<nat>, letters: seq<Letter>)
    ensures Accounted(script, log, from, from, returned, returned, letters, letters)
  {
  }

  lemma Fewer(script: Script, log: seq<Record>, from: nat, to: nat, further: nat,
              returned0: set<nat>, returned: set<nat>, letters0: seq<Letter>, letters: seq<Letter>)
    requires to <= further && Accounted(script, log, from, further, returned0, returned, letters0, letters)
    ensures Accounted(script, log, from, to, returned0, returned, letters0, letters)
  {
  }

  lemma NoValue(script: Script, log: seq<Record>, from: nat, to: nat,
                returned0: set<nat>, returned: set<nat>, letters0: seq<Letter>, letters: seq<Letter>)
    requires to < |log| && log[to].Null? && Accounted(script, log, from, to, returned0, returned, letters0, letters)
    ensures Accounted(script, log, from, to + 1, returned0, returned, letters0, letters)
  {
  }

  /** A letter for `offset`, or a normal return, accounts for one more record. */
  lemma OneDelivery(script: Script, log: seq<Record>, from: nat, offset: nat,
                    returned0: set<nat>, returned: set<nat>, returned': set<nat>,
                    letters0: seq<Letter>, letters: seq<Letter>, letters': seq<Letter>, attempts: nat)
    requires Accounted(script, log, from, offset, returned0, returned, letters0, letters) && attempts >= 1
    requires returned' == returned || (returned' == returned + {offset} && script.calls(offset)(attempts) == Handled)
    requires letters' == letters || (letters <= letters' && |letters'| == |letters| + 1
                                     && letters'[|letters|].offset == offset && ReportsEnd(script, letters'[|letters|]))
    ensures Accounted(script, log, from, offset, returned0, returned', letters0, letters')
    ensures script.calls(offset)(attempts) == Handled || letters' != letters ==>
              Accounted(script, log, from, offset + 1, returned0, returned', letters0, letters')
  {
    hide Buried, EverHandled;
    SomeCall(script, offset, attempts);
    var before, after := letters[|letters0|..], letters'[|letters0|..];
    assert before <= after;
    forall o | Buried(before, o) ensures Buried(after, o) {
      StillBuried(before, after, o);
    }
    if letters' != letters {
      assert after[|before|] == letters'[|letters|];
      IsBuried(after, |before|);
    }
  }

  lemma SomeCall(script: Script, offset: nat, attempts: nat)
    requires attempts >= 1
    ensures script.calls(offset)(attempts) == Handled ==> EverHandled(script, offset)
  {
  }

  lemma StillBuried(before: seq<Letter>, after: seq<Letter>, offset: nat)
    requires before <= after && Buried(before, offset)
    ensures Buried(after, offset)
  {
    var i :| 0 <= i < |before| && before[i].offset == offset;
    assert after[i].offset == offset;
  }

  lemma IsBuried(letters: seq<Letter>, i: nat)
    requires i < |letters|
    ensures Buried(letters, letters[i].offset)
  {
  }

  /** In a valid partition everything below the committed offset, and below a position being polled, is settled. */
  lemma CommittedIsSettled(p: Partition, c: nat)
    requires p.Valid()
    ensures forall k: nat :: k < p.committed ==> Settled(p.Abs(), k)
    ensures At(p.rest, c).Polling? ==> forall k: nat :: k < At(p.rest, c).position ==> Settled(p.Abs(), k)
  {
    hide Settled;
    CommitsAreHonest(EMPTY, p.maxAttempts, p.trace);
    assert ConsumerSound(p.Abs(), p.maxAttempts, At(p.Abs(), c));
  }
}
