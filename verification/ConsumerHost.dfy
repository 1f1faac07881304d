/** The consumer host: bounded retries with exponential waits, dead letters, and manual commits. */
module ConsumerHost {

  /** How one call of the handler can end. */
  datatype Outcome = Handled | Poison | Cancelled | Transient

  /** What `ProcessWithRetryAsync` does with a record. */
  datatype Fate = Finished | DeadLettered(poison: bool) | Stopped

  function Pow2(n: nat): nat {
    if n == 0 then 1 else 2 * Pow2(n - 1)
  }

  /** At least one attempt is always made. */
  function Limit(maxAttempts: int): nat {
    if maxAttempts < 1 then 1 else maxAttempts
  }

  function FateOf(last: Outcome): Fate {
    match last
    case Handled => Finished
    case Poison => DeadLettered(true)
    case Cancelled => Stopped
    case Transient => DeadLettered(false)
  }

  /** `attempts` calls are made and the last one ends in `last`. */
  predicate Delivery(maxAttempts: int, attempts: nat, last: Outcome) {
    1 <= attempts <= Limit(maxAttempts) && (last == Transient ==> attempts == Limit(maxAttempts))
  }

  /** The retry loop. `outcomes(k)` is how the k-th call ends; the waits are `delay * 2^(attempt-1)`. */
  method ProcessWithRetry(outcomes: nat -> Outcome, maxAttempts: int, delay: nat)
    returns (fate: Fate, attempt: nat, waited: nat)
    ensures Delivery(maxAttempts, attempt, outcomes(attempt))
    ensures forall k :: 1 <= k < attempt ==> outcomes(k) == Transient
    ensures fate == FateOf(outcomes(attempt))
    ensures fate == Finished <==> outcomes(attempt) == Handled
    ensures fate == DeadLettered(true) <==> outcomes(attempt) == Poison
    ensures fate == DeadLettered(false) <==> outcomes(attempt) == Transient
    ensures fate == Stopped <==> outcomes(attempt) == Cancelled
    ensures 1 <= attempt && (attempt <= maxAttempts || attempt == 1)
    ensures outcomes(attempt) == Transient ==> attempt >= maxAttempts
    ensures waited == delay * (Pow2(attempt - 1) - 1)
  {
    attempt, waited := 0, 0;
    while true
      invariant 0 <= attempt < Limit(maxAttempts)
      invariant forall k :: 1 <= k <= attempt ==> outcomes(k) == Transient
      invariant waited == delay * (Pow2(attempt) - 1)
      decreases Limit(maxAttempts) - attempt
    {
      attempt := attempt + 1;
      match outcomes(attempt)
      case Handled => return Finished, attempt, waited;
      case Poison => return DeadLettered(true), attempt, waited;
      case Cancelled => return Stopped, attempt, waited;
      case Transient =>
        if attempt < maxAttempts {
          waited := waited + delay * Pow2(attempt - 1);
          assert delay * (Pow2(attempt) - 1) == delay * (Pow2(attempt - 1) - 1) + delay * Pow2(attempt - 1);
        } else {
          return DeadLettered(false), attempt, waited;
        }
    }
  }

  // ---- Offsets of one partition ----

  datatype Record = Null | Value

  datatype Letter = Letter(offset: nat, attempts: nat, poison: bool)

  /** A consumer instance: its fetch position or the record in its hands. */
  datatype Consumer =
    | Down
    | Polling(position: nat)
    | Processing(offset: nat)
    | Burying(letter: Letter)   // inside `DeadLetterAsync`
    | Resolved(offset: nat)     // about to commit

  /** One call of the retry loop: its record, how many handler calls it made, and how the last one ended. */
  datatype Ended = Ended(offset: nat, attempts: nat, last: Outcome)

  /** `ended` remembers every call of the retry loop; `returned` holds the offsets taken for handled. */
  datatype State = State(
    log: seq<Record>,
    committed: nat,
    returned: set<nat>,
    letters: seq<Letter>,
    ended: seq<Ended>,
    consumers: map<nat, Consumer>)

  const EMPTY := State([], 0, {}, [], [], map[])

  datatype Step =
    | Append(record: Record)
    | Start(c: nat)
    | Poll(c: nat)
    | Process(c: nat, attempts: nat, last: Outcome)
    | Bury(c: nat, appended: bool, thrown: bool)
    | Commit(c: nat, stored: bool, thrown: bool)
    | Crash(c: nat)

  function At(s: State, c: nat): Consumer {
    if c in s.consumers then s.consumers[c] else Down
  }

  function Put(s: State, c: nat, consumer: Consumer): State {
    s.(consumers := s.consumers[c := consumer])
  }

  predicate Enabled(s: State, maxAttempts: int, step: Step) {
    match step
    case Append(_) => true
    case Start(c) => At(s, c).Down?
    case Poll(c) => At(s, c).Polling? && At(s, c).position < |s.log|
    case Process(c, attempts, last) => At(s, c).Processing? && Delivery(maxAttempts, attempts, last)
    case Bury(c, appended, thrown) => At(s, c).Burying? && (appended || thrown)
    case Commit(c, stored, thrown) => At(s, c).Resolved? && (stored || thrown)
    case Crash(_) => true
  }

  /** A publish or commit that throws leaves the loop, whether or not it took effect. */
  function Apply(s: State, maxAttempts: int, step: Step): State
    requires Enabled(s, maxAttempts, step)
  {
    match step
    case Append(record) => s.(log := s.log + [record])
    case Start(c) => Put(s, c, Polling(s.committed))
    case Poll(c) =>
      var position := At(s, c).position;
      Put(s, c, if s.log[position].Null? then Polling(position + 1) else Processing(position))
    case Process(c, attempts, last) =>
      var offset := At(s, c).offset;
      var s' := s.(ended := s.ended + [Ended(offset, attempts, last)]);
      match FateOf(last) {
        case Finished => Put(s'.(returned := s.returned + {offset}), c, Resolved(offset))
        case DeadLettered(poison) => Put(s', c, Burying(Letter(offset, attempts, poison)))
        case Stopped => Put(s', c, Down)
      }
    case Bury(c, appended, thrown) =>
      var letter := At(s, c).letter;
      Put(if appended then s.(letters := s.letters + [letter]) else s, c, if thrown then Down else Resolved(letter.offset))
    case Commit(c, stored, thrown) =>
      var offset := At(s, c).offset;
      Put(if stored then s.(committed := offset + 1) else s, c, if thrown then Down else Polling(offset + 1))
    case Crash(c) => Put(s, c, Down)
  }

  ghost predicate ValidRun(s: State, maxAttempts: int, steps: seq<Step>)
    decreases |steps|
  {
    steps == [] || (Enabled(s, maxAttempts, steps[0]) && ValidRun(Apply(s, maxAttempts, steps[0]), maxAttempts, steps[1..]))
  }

  ghost function Run(s: State, maxAttempts: int, steps: seq<Step>): State
    requires ValidRun(s, maxAttempts, steps)
    decreases |steps|
  {
    if steps == [] then s else Run(Apply(s, maxAttempts, steps[0]), maxAttempts, steps[1..])
  }

  lemma {:induction false} RunSnoc(s: State, maxAttempts: int, steps: seq<Step>, step: Step)
    requires ValidRun(s, maxAttempts, steps) && Enabled(Run(s, maxAttempts, steps), maxAttempts, step)
    ensures ValidRun(s, maxAttempts, steps + [step])
    ensures Run(s, maxAttempts, steps + [step]) == Apply(Run(s, maxAttempts, steps), maxAttempts, step)
    decreases |steps|
  {
    if steps == [] {
      assert ValidRun(Apply(s, maxAttempts, step), maxAttempts, []) && (steps + [step])[1..] == [];
    } else {
      RunSnoc(Apply(s, maxAttempts, steps[0]), maxAttempts, steps[1..], step);
      assert (steps + [step])[1..] == steps[1..] + [step];
    }
  }

  /** The record had no value, or some handler call for it returned normally, or a dead letter for it is in the topic. */
  ghost predicate Settled(s: State, k: nat) {
    && k < |s.log|
    && (s.log[k].Null? || HandledOnce(s, k) || exists i :: 0 <= i < |s.letters| && s.letters[i].offset == k)
  }

  ghost predicate HandledOnce(s: State, k: nat) {
    exists i :: 0 <= i < |s.ended| && s.ended[i].offset == k && s.ended[i].last == Handled
  }

  ghost predicate SettledBelow(s: State, bound: nat) {
    forall k: nat :: k < bound ==> Settled(s, k)
  }

  /** The letter reports a call of the retry loop that ended in poison, or in a transient failure with all attempts
      made. */
  ghost predicate Lawful(s: State, maxAttempts: int, l: Letter) {
    && 1 <= l.attempts && (l.attempts <= maxAttempts || l.attempts == 1)
    && (!l.poison ==> l.attempts >= maxAttempts)
    && Ended(l.offset, l.attempts, if l.poison then Poison else Transient) in s.ended
  }

  ghost predicate Sound(s: State, maxAttempts: int) {
    && SettledBelow(s, s.committed)
    && (forall k: nat :: k in s.returned ==> HandledOnce(s, k))
    && (forall i :: 0 <= i < |s.letters| ==> Lawful(s, maxAttempts, s.letters[i]))
    && forall c :: ConsumerSound(s, maxAttempts, At(s, c))
  }

  ghost predicate ConsumerSound(s: State, maxAttempts: int, consumer: Consumer) {
    match consumer
    case Down => true
    case Polling(position) => SettledBelow(s, position)
    case Processing(offset) => offset < |s.log| && SettledBelow(s, offset)
    case Burying(letter) => letter.offset < |s.log| && SettledBelow(s, letter.offset) && Lawful(s, maxAttempts, letter)
    case Resolved(offset) => SettledBelow(s, offset + 1)
  }

  /** Logs, letters and ended calls only grow. */
  ghost predicate Grows(s: State, s': State) {
    s.log <= s'.log && s.letters <= s'.letters && s.ended <= s'.ended
  }

  lemma StepGrows(s: State, maxAttempts: int, step: Step)
    requires Enabled(s, maxAttempts, step)
    ensures Grows(s, Apply(s, maxAttempts, step))
  {
    hide FateOf, Delivery;
  }

  lemma HandledStays(s: State, s': State, k: nat)
    requires Grows(s, s') && HandledOnce(s, k)
    ensures HandledOnce(s', k)
  {
    var i :| 0 <= i < |s.ended| && s.ended[i].offset == k && s.ended[i].last == Handled;
    assert s'.ended[i] == s.ended[i];
  }

  lemma SettledStays(s: State, s': State, bound: nat)
    requires Grows(s, s') && SettledBelow(s, bound)
    ensures SettledBelow(s', bound)
  {
    hide HandledOnce;
    forall k: nat | k < bound ensures Settled(s', k) {
      assert Settled(s, k);
      if HandledOnce(s, k) {
        HandledStays(s, s', k);
      } else if !s.log[k].Null? {
        var i :| 0 <= i < |s.letters| && s.letters[i].offset == k;
        assert s'.letters[i].offset == k;
      }
    }
  }

  lemma LawfulStays(s: State, s': State, maxAttempts: int, l: Letter)
    requires Grows(s, s') && Lawful(s, maxAttempts, l)
    ensures Lawful(s', maxAttempts, l)
  {
    var e := Ended(l.offset, l.attempts, if l.poison then Poison else Transient);
    var i :| 0 <= i < |s.ended| && s.ended[i] == e;
    assert s'.ended[i] == e;
  }

  lemma ConsumerStays(s: State, s': State, maxAttempts: int, consumer: Consumer)
    requires Grows(s, s') && ConsumerSound(s, maxAttempts, consumer)
    ensures ConsumerSound(s', maxAttempts, consumer)
  {
    hide SettledBelow, Lawful;
    match consumer
    case Down =>
    case Polling(position) => SettledStays(s, s', position);
    case Processing(offset) => SettledStays(s, s', offset);
    case Burying(letter) =>
      SettledStays(s, s', letter.offset);
      LawfulStays(s, s', maxAttempts, letter);
    case Resolved(offset) => SettledStays(s, s', offset + 1);
  }

  /** One more settled record moves the bound. */
  lemma OneMoreSettled(s: State, bound: nat)
    requires SettledBelow(s, bound) && Settled(s, bound)
    ensures SettledBelow(s, bound + 1)
  {
    hide Settled;
  }

  /** The retry loop has ended: the record is handled, or its letter is lawful. */
  lemma ProcessStep(s: State, maxAttempts: int, c: nat, attempts: nat, last: Outcome)
    requires Sound(s, maxAttempts) && Enabled(s, maxAttempts, Process(c, attempts, last))
    ensures var s' := Apply(s, maxAttempts, Process(c, attempts, last));
            && ConsumerSound(s', maxAttempts, At(s', c))
            && (forall k: nat :: k in s'.returned ==> HandledOnce(s', k))
  {
    hide SettledBelow, Settled, HandledOnce;
    var s' := Apply(s, maxAttempts, Process(c, attempts, last));
    var offset := At(s, c).offset;
    assert ConsumerSound(s, maxAttempts, At(s, c));
    StepGrows(s, maxAttempts, Process(c, attempts, last));
    SettledStays(s, s', offset);
    assert s'.ended[|s.ended|] == Ended(offset, attempts, last);
    if last == Handled {
      NowHandled(s', offset, |s.ended|);
      SettledByHandling(s', offset);
      OneMoreSettled(s', offset);
    }
    forall k: nat | k in s'.returned ensures HandledOnce(s', k) {
      if k in s.returned {
        HandledStays(s, s', k);
      }
    }
  }

  lemma NowHandled(s: State, k: nat, i: nat)
    requires i < |s.ended| && s.ended[i].offset == k && s.ended[i].last == Handled
    ensures HandledOnce(s, k)
  {
  }

  lemma SettledByHandling(s: State, k: nat)
    requires k < |s.log| && HandledOnce(s, k)
    ensures Settled(s, k)
  {
  }

  /** The letter is in the topic, so its record is settled. */
  lemma BuryStep(s: State, maxAttempts: int, c: nat, appended: bool, thrown: bool)
    requires Sound(s, maxAttempts) && Enabled(s, maxAttempts, Bury(c, appended, thrown))
    ensures var s' := Apply(s, maxAttempts, Bury(c, appended, thrown));
            && ConsumerSound(s', maxAttempts, At(s', c))
            && (forall i :: 0 <= i < |s'.letters| ==> Lawful(s', maxAttempts, s'.letters[i]))
  {
    hide SettledBelow, HandledOnce, Lawful;
    var s' := Apply(s, maxAttempts, Bury(c, appended, thrown));
    var letter := At(s, c).letter;
    assert ConsumerSound(s, maxAttempts, At(s, c));
    StepGrows(s, maxAttempts, Bury(c, appended, thrown));
    SettledStays(s, s', letter.offset);
    LawfulStays(s, s', maxAttempts, letter);
    if appended {
      assert s'.letters[|s.letters|] == letter;
      OneMoreSettled(s', letter.offset);
    }
    forall i | 0 <= i < |s'.letters| ensures Lawful(s', maxAttempts, s'.letters[i]) {
      if i < |s.letters| {
        LawfulStays(s, s', maxAttempts, s.letters[i]);
      }
    }
  }

  /** A record without a value is settled as it is. */
  lemma PollStep(s: State, maxAttempts: int, c: nat)
    requires Sound(s, maxAttempts) && Enabled(s, maxAttempts, Poll(c))
    ensures var s' := Apply(s, maxAttempts, Poll(c));
            ConsumerSound(s', maxAttempts, At(s', c))
  {
    hide SettledBelow, HandledOnce;
    var s' := Apply(s, maxAttempts, Poll(c));
    var position := At(s, c).position;
    assert ConsumerSound(s, maxAttempts, At(s, c));
    StepGrows(s, maxAttempts, Poll(c));
    SettledStays(s, s', position);
    if s.log[position].Null? {
      OneMoreSettled(s', position);
    }
  }

  /** What the other steps do to the consumer that takes them. */
  lemma OtherStep(s: State, maxAttempts: int, step: Step, c: nat)
    requires Sound(s, maxAttempts) && Enabled(s, maxAttempts, step)
    requires (step.Process? || step.Bury? || step.Poll?) ==> step.c != c
    ensures ConsumerSound(Apply(s, maxAttempts, step), maxAttempts, At(Apply(s, maxAttempts, step), c))
  {
    hide SettledBelow, Lawful, HandledOnce, FateOf;
    var s' := Apply(s, maxAttempts, step);
    StepGrows(s, maxAttempts, step);
    assert ConsumerSound(s, maxAttempts, At(s, c));
    ConsumerStays(s, s', maxAttempts, At(s, c));
    if step == Start(c) {
      SettledStays(s, s', s.committed);
    }
  }

  lemma SoundStep(s: State, maxAttempts: int, step: Step)
    requires Sound(s, maxAttempts) && Enabled(s, maxAttempts, step)
    ensures Sound(Apply(s, maxAttempts, step), maxAttempts)
  {
    hide SettledBelow, Lawful, HandledOnce, ConsumerSound, Enabled, FateOf;
    var s' := Apply(s, maxAttempts, step);
    StepGrows(s, maxAttempts, step);
    SettledStays(s, s', s.committed);
    match step {
      case Process(c, attempts, last) => ProcessStep(s, maxAttempts, c, attempts, last);
      case Bury(c, appended, thrown) => BuryStep(s, maxAttempts, c, appended, thrown);
      case Poll(c) => PollStep(s, maxAttempts, c);
      case Commit(c, _, _) => CommitStep(s, maxAttempts, step);
      case _ =>
    }
    forall c ensures ConsumerSound(s', maxAttempts, At(s', c)) {
      if !((step.Process? || step.Bury? || step.Poll?) && step.c == c) {
        OtherStep(s, maxAttempts, step, c);
      }
    }
    forall k: nat | k in s'.returned ensures HandledOnce(s', k) {
      if !step.Process? {
        HandledStays(s, s', k);
      }
    }
    forall i | 0 <= i < |s'.letters| ensures Lawful(s', maxAttempts, s'.letters[i]) {
      if !step.Bury? {
        LawfulStays(s, s', maxAttempts, s.letters[i]);
      }
    }
  }

  /** A commit covers its own record and everything before it. */
  lemma CommitStep(s: State, maxAttempts: int, step: Step)
    requires Sound(s, maxAttempts) && Enabled(s, maxAttempts, step) && step.Commit?
    ensures SettledBelow(Apply(s, maxAttempts, step), Apply(s, maxAttempts, step).committed)
  {
    hide SettledBelow, Lawful, HandledOnce;
    assert ConsumerSound(s, maxAttempts, At(s, step.c));
    StepGrows(s, maxAttempts, step);
    SettledStays(s, Apply(s, maxAttempts, step), At(s, step.c).offset + 1);
    SettledStays(s, Apply(s, maxAttempts, step), s.committed);
  }

  /** MAIN: a committed offset means that every earlier record had no value, was handled by a call that returned
      normally, or was dead-lettered, whatever crashed, threw or was delivered again; and a dead letter reports a
      call that ended in poison, or in a transient failure after all attempts. */
  lemma {:induction false} CommitsAreHonest(s: State, maxAttempts: int, steps: seq<Step>)
    requires Sound(s, maxAttempts) && ValidRun(s, maxAttempts, steps)
    ensures Sound(Run(s, maxAttempts, steps), maxAttempts)
    ensures forall k: nat :: k < Run(s, maxAttempts, steps).committed ==> Settled(Run(s, maxAttempts, steps), k)
    ensures forall i :: 0 <= i < |Run(s, maxAttempts, steps).letters| ==>
              Lawful(Run(s, maxAttempts, steps), maxAttempts, Run(s, maxAttempts, steps).letters[i])
    decreases |steps|
  {
    hide Apply, Enabled;
    if steps != [] {
      SoundStep(s, maxAttempts, steps[0]);
      CommitsAreHonest(Apply(s, maxAttempts, steps[0]), maxAttempts, steps[1..]);
    }
  }
}
