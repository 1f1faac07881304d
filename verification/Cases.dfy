/**
 The case workflow: a case is opened from a risk decision and then moved by analysts. `Transition`
 accepts every target from every status, logs each move and adjusts the gauge of open cases.
 Moves of one case are serial.
 */
module Cases {
  import opened Contracts
  import opened Text

  datatype Case = Case(
    transactionId: string, score: int, level: RiskLevel,
    status: CaseStatus, analyst: Option<string>, decision: Option<RiskDecision>)

  /** One row of the case history. */
  datatype Entry = Entry(caseId: nat, from: CaseStatus, to: CaseStatus, actor: string, notes: Option<string>)

  /** `lost` counts the gauge updates that do not match a stored change: a crash before the increment, or a
      decrement whose save then failed. */
  datatype State = State(cases: map<nat, Case>, history: seq<Entry>, gauge: int, lost: nat)

  const EMPTY := State(map[], [], 0, 0)

  datatype Step =
    | Open(id: nat, transactionId: string, verdict: Verdict, counted: bool)
    | Move(id: nat, to: CaseStatus, assignee: Option<string>, actor: string, notes: Option<string>, saved: bool)

  predicate Terminal(status: CaseStatus) {
    status == ConfirmedFraud || status == FalsePositive || status == Closed
  }

  predicate HasCase(cases: map<nat, Case>, transactionId: string) {
    exists id :: id in cases && cases[id].transactionId == transactionId
  }

  /** The case after a move. */
  function Moved(c: Case, to: CaseStatus, assignee: Option<string>): Case {
    c.(status := to,
       analyst := if assignee.Some? && !IsWhiteSpace(assignee.value) then assignee else c.analyst,
       decision :=
         if to == ConfirmedFraud then Some(Block) else if to == FalsePositive then Some(Approve) else c.decision)
  }

  /** The change of the gauge made by a move. */
  function GaugeChange(from: CaseStatus, to: CaseStatus): int {
    if to == ConfirmedFraud || ((to == FalsePositive || to == Closed) && !Terminal(from)) then -1 else 0
  }

  ghost predicate Enabled(s: State, step: Step) {
    step.Open? ==> step.id !in s.cases
  }

  ghost function Apply(s: State, step: Step): State
    requires Enabled(s, step)
  {
    match step
    case Open(id, transactionId, verdict, counted) =>
      if !NeedsAnalyst(verdict.decision) || HasCase(s.cases, transactionId) then s
      else
        State(
          s.cases[id := Case(transactionId, verdict.score, verdict.level, CaseStatus.Open, None, None)],
          s.history + [Entry(id, CaseStatus.Open, CaseStatus.Open, "system", Some("Case opened from risk decision."))],
          if counted then s.gauge + 1 else s.gauge,
          if counted then s.lost else s.lost + 1)
    case Move(id, to, assignee, actor, notes, saved) =>
      if id !in s.cases then s
      else
        var from := s.cases[id].status;
        var change := GaugeChange(from, to);
        if saved then
          State(s.cases[id := Moved(s.cases[id], to, assignee)], s.history + [Entry(id, from, to, actor, notes)],
                s.gauge + change, s.lost)
        else
          s.(gauge := s.gauge + change, lost := s.lost - change)
  }

  ghost predicate ValidRun(s: State, steps: seq<Step>)
    decreases |steps|
  {
    steps == [] || (Enabled(s, steps[0]) && ValidRun(Apply(s, steps[0]), steps[1..]))
  }

  ghost function Run(s: State, steps: seq<Step>): State
    requires ValidRun(s, steps)
    decreases |steps|
  {
    if steps == [] then s else Run(Apply(s, steps[0]), steps[1..])
  }

  // ---- The log determines the case ----

  function EntriesOf(history: seq<Entry>, id: nat): seq<Entry> {
    if history == [] then []
    else
      var last := history[|history| - 1];
      EntriesOf(history[..|history| - 1], id) + if last.caseId == id then [last] else []
  }

  predicate IsRuling(status: CaseStatus) {
    status == ConfirmedFraud || status == FalsePositive
  }

  /** Row `i` is the last one that confirms or rejects the suspicion. */
  ghost predicate LastRuling(log: seq<Entry>, i: nat) {
    i < |log| && IsRuling(log[i].to) && forall j :: i < j < |log| ==> !IsRuling(log[j].to)
  }

  ghost predicate Ruled(log: seq<Entry>) {
    exists i: nat :: LastRuling(log, i)
  }

  /** The rows of one case chain from its opening row and determine its status and its analyst decision. */
  ghost predicate Logged(c: Case, log: seq<Entry>) {
    && log != []
    && log[0].from == CaseStatus.Open && log[0].to == CaseStatus.Open && log[0].actor == "system"
    && (forall i :: 0 < i < |log| ==> log[i].from == log[i - 1].to)
    && c.status == log[|log| - 1].to
    && (c.decision.Some? <==> Ruled(log))
    && (forall i: nat :: LastRuling(log, i) ==> c.decision == Some(if log[i].to == ConfirmedFraud then Block else Approve))
  }

  lemma EntriesSnoc(history: seq<Entry>, e: Entry, id: nat)
    ensures EntriesOf(history + [e], id) == EntriesOf(history, id) + if e.caseId == id then [e] else []
  {
    assert (history + [e])[..|history|] == history;
  }

  lemma MoveIsLogged(c: Case, log: seq<Entry>, e: Entry, assignee: Option<string>)
    requires Logged(c, log) && e.from == c.status
    ensures Logged(Moved(c, e.to, assignee), log + [e])
  {
    var log' := log + [e];
    if IsRuling(e.to) {
      assert LastRuling(log', |log|);
    } else {
      forall i: nat | LastRuling(log', i) ensures LastRuling(log, i) {
        assert log'[i] == log[i];
        assert forall j :: i < j < |log| ==> log'[j] == log[j];
      }
      forall i: nat | LastRuling(log, i) ensures LastRuling(log', i) {}
    }
  }

  // ---- The gauge ----

  /** A move after which the gauge is one lower, relative to the open cases, than before. */
  predicate Drifts(e: Entry) {
    Terminal(e.from) && (!Terminal(e.to) || e.to == ConfirmedFraud)
  }

  /** Reopenings, and confirmations of a case that was already settled. */
  function Drift(history: seq<Entry>): nat {
    if history == [] then 0
    else Drift(history[..|history| - 1]) + if Drifts(history[|history| - 1]) then 1 else 0
  }

  /** The cases that are not settled. */
  ghost function OpenCases(s: State): set<nat> {
    set id | id in s.cases && !Terminal(s.cases[id].status)
  }

  // ---- The invariant ----

  ghost predicate OneCasePerTransaction(s: State) {
    forall i, j :: i in s.cases && j in s.cases && s.cases[i].transactionId == s.cases[j].transactionId ==> i == j
  }

  ghost predicate AllLogged(s: State) {
    forall id: nat ::
      && (id in s.cases ==> Logged(s.cases[id], EntriesOf(s.history, id)))
      && (id !in s.cases ==> EntriesOf(s.history, id) == [])
  }

  ghost predicate GaugeLaw(s: State) {
    |OpenCases(s)| - s.gauge == Drift(s.history) + s.lost
  }

  ghost predicate Inv(s: State) {
    AllLogged(s) && OneCasePerTransaction(s) && GaugeLaw(s)
  }

  lemma LoggedStep(s: State, step: Step)
    requires AllLogged(s) && Enabled(s, step)
    ensures AllLogged(Apply(s, step))
  {
    hide Logged;
    var s' := Apply(s, step);
    if |s'.history| > |s.history| {
      var e := s'.history[|s.history|];
      assert s'.history == s.history + [e];
      forall id: nat
        ensures id in s'.cases ==> Logged(s'.cases[id], EntriesOf(s'.history, id))
        ensures id !in s'.cases ==> EntriesOf(s'.history, id) == []
      {
        EntriesSnoc(s.history, e, id);
        if id == e.caseId {
          if step.Open? {
            OpeningIsLogged(s'.cases[id], e);
            assert EntriesOf(s'.history, id) == [] + [e] == [e];
          } else {
            StatusIsLast(s.cases[id], EntriesOf(s.history, id));
            MoveIsLogged(s.cases[id], EntriesOf(s.history, id), e, step.assignee);
          }
        } else {
          assert EntriesOf(s'.history, id) == EntriesOf(s.history, id) + [] == EntriesOf(s.history, id);
        }
      }
    }
  }

  lemma OpeningIsLogged(c: Case, e: Entry)
    requires c.status == CaseStatus.Open && c.decision.None?
    requires e.from == CaseStatus.Open && e.to == CaseStatus.Open && e.actor == "system"
    ensures Logged(c, [e])
  {
  }

  lemma StatusIsLast(c: Case, log: seq<Entry>)
    requires Logged(c, log)
    ensures log != [] && c.status == log[|log| - 1].to
  {
  }

  lemma OpenCasesUpdate(s: State, s': State, id: nat, c: Case)
    requires s'.cases == s.cases[id := c]
    ensures |OpenCases(s')| - |OpenCases(s)|
         == (if Terminal(c.status) then 0 else 1) - (if id in OpenCases(s) then 1 else 0)
  {
    hide Terminal, OpenCases;
    forall i: nat
      ensures i in OpenCases(s') <==> if i == id then !Terminal(c.status) else i in OpenCases(s)
    {
      OpenMember(s, i);
      OpenMember(s', i);
    }
    if Terminal(c.status) {
      assert OpenCases(s') == OpenCases(s) - {id};
    } else {
      assert OpenCases(s') == OpenCases(s) + {id};
    }
  }

  lemma DriftSnoc(history: seq<Entry>, e: Entry)
    ensures Drift(history + [e]) == Drift(history) + if Drifts(e) then 1 else 0
  {
    assert (history + [e])[..|history|] == history;
  }

  lemma GaugeStep(s: State, step: Step)
    requires GaugeLaw(s) && Enabled(s, step)
    ensures GaugeLaw(Apply(s, step))
  {
    hide Drift, OpenCases, HasCase;
    var s' := Apply(s, step);
    if |s'.history| > |s.history| {
      var id, e := step.id, s'.history[|s.history|];
      OpenCasesUpdate(s, s', id, s'.cases[id]);
      DriftSnoc(s.history, e);
      OpenMember(s, id);
    } else {
      SameOpenCases(s, s');
    }
  }

  lemma OpenMember(s: State, id: nat)
    ensures id in OpenCases(s) <==> id in s.cases && !Terminal(s.cases[id].status)
  {
  }

  lemma SameOpenCases(s: State, s': State)
    requires s.cases == s'.cases
    ensures OpenCases(s) == OpenCases(s')
  {
  }

  lemma InvStep(s: State, step: Step)
    requires Inv(s) && Enabled(s, step)
    ensures Inv(Apply(s, step))
  {
    hide AllLogged, GaugeLaw;
    LoggedStep(s, step);
    GaugeStep(s, step);
  }

  lemma {:induction false} InvRun(s: State, steps: seq<Step>)
    requires Inv(s) && ValidRun(s, steps)
    ensures Inv(Run(s, steps))
    decreases |steps|
  {
    hide Inv, Apply;
    if steps != [] {
      InvStep(s, steps[0]);
      InvRun(Apply(s, steps[0]), steps[1..]);
    }
  }

  /** A settled case that is reopened, or confirmed once more. */
  predicate Loosens(e: Entry) {
    && e.from in {ConfirmedFraud, FalsePositive, Closed}
    && e.to in {CaseStatus.Open, Assigned, Investigating, Escalated, ConfirmedFraud}
  }

  /** The rows that make the gauge fall behind. */
  function Loosened(history: seq<Entry>): set<int> {
    set i | 0 <= i < |history| && Loosens(history[i])
  }

  lemma LoosenedSnoc(history: seq<Entry>, e: Entry)
    ensures Loosened(history + [e]) == Loosened(history) + if Loosens(e) then {|history|} else {}
    ensures |history| !in Loosened(history)
  {
    hide Loosens;
    var all := history + [e];
    assert forall i :: 0 <= i < |history| ==> all[i] == history[i];
  }

  lemma {:induction false} DriftCount(history: seq<Entry>)
    ensures Drift(history) == |Loosened(history)|
  {
    hide Loosened;
    if history == [] {
      NothingLoosened();
    } else {
      var n := |history| - 1;
      DriftCount(history[..n]);
      LoosenedSnoc(history[..n], history[n]);
      assert history == history[..n] + [history[n]];
      assert Drifts(history[n]) <==> Loosens(history[n]);
    }
  }

  lemma NothingLoosened()
    ensures Loosened([]) == {}
  {
  }

  /** The cases that are open, by their four statuses. */
  lemma OpenCasesAre(s: State)
    ensures OpenCases(s) ==
      set id | id in s.cases && s.cases[id].status in {CaseStatus.Open, Assigned, Investigating, Escalated}
  {
  }

  /** MAIN: in every run the log of each case chains and determines it, a transaction has at most one case, and the
      gauge is below the number of open cases by exactly the drifting moves and the lost updates. */
  lemma CaseWorkflow(steps: seq<Step>)
    requires ValidRun(EMPTY, steps)
    ensures var s := Run(EMPTY, steps);
            && AllLogged(s) && OneCasePerTransaction(s)
            && |OpenCases(s)| - s.gauge == |Loosened(s.history)| + s.lost
            && s.gauge <= |OpenCases(s)|
            && OpenCases(s) ==
               set id | id in s.cases && s.cases[id].status in {CaseStatus.Open, Assigned, Investigating, Escalated}
  {
    DriftCount(Run(EMPTY, steps).history);
    OpenCasesAre(Run(EMPTY, steps));
    assert OpenCases(EMPTY) == {};
    InvRun(EMPTY, steps);
  }

  /** MAIN: with no lost update the gauge is exact if and only if no settled case was reopened or confirmed again. */
  lemma GaugeExactIff(steps: seq<Step>)
    requires ValidRun(EMPTY, steps) && Run(EMPTY, steps).lost == 0
    ensures var s := Run(EMPTY, steps);
            s.gauge == |OpenCases(s)| <==> forall e :: e in s.history ==> !Loosens(e)
  {
    CaseWorkflow(steps);
    var history := Run(EMPTY, steps).history;
    DriftCount(history);
    forall e: Entry ensures Drifts(e) <==> Loosens(e) {
    }
    DriftFree(Run(EMPTY, steps).history);
  }

  lemma {:induction false} DriftFree(history: seq<Entry>)
    ensures Drift(history) == 0 <==> forall e :: e in history ==> !Drifts(e)
  {
    if history != [] {
      var n := |history| - 1;
      DriftFree(history[..n]);
      assert history == history[..n] + [history[n]];
    }
  }

  // ---- The tables and the gauge as they are updated ----

  class CaseBook {
    var cases: map<nat, Case>
    var history: seq<Entry>
    var gauge: int
    ghost var lost: nat

    ghost function Abs(): State
      reads this
    {
      State(cases, history, gauge, lost)
    }

    constructor ()
      ensures Abs() == EMPTY && Inv(Abs())
    {
      cases, history, gauge, lost := map[], [], 0, 0;
      new;
      assert OpenCases(EMPTY) == {};
    }

    /** The decision fan-out: `counted` is false when the process dies between the save and the gauge. */
    method Open(id: nat, transactionId: string, verdict: Verdict, counted: bool)
      requires Inv(Abs()) && id !in cases
      modifies this
      ensures Abs() == Apply(old(Abs()), Step.Open(id, transactionId, verdict, counted)) && Inv(Abs())
      ensures verdict.decision == Approve || HasCase(old(cases), transactionId) ==>
        cases == old(cases) && history == old(history) && gauge == old(gauge)
      ensures verdict.decision in {Review, Block} && !HasCase(old(cases), transactionId) ==>
        && cases == old(cases)[id := Case(transactionId, verdict.score, verdict.level, CaseStatus.Open, None, None)]
        && |history| == |old(history)| + 1 && history[..|old(history)|] == old(history)
        && history[|old(history)|].caseId == id && history[|old(history)|].actor == "system"
        && history[|old(history)|].from == history[|old(history)|].to == CaseStatus.Open
        && gauge == old(gauge) + if counted then 1 else 0
    {
      hide Inv, HasCase;
      InvStep(Abs(), Step.Open(id, transactionId, verdict, counted));
      if verdict.decision == Review || verdict.decision == Block {
        if !HasCase(cases, transactionId) {
          cases := cases[id := Case(transactionId, verdict.score, verdict.level, CaseStatus.Open, None, None)];
          history := history
            + [Entry(id, CaseStatus.Open, CaseStatus.Open, "system", Some("Case opened from risk decision."))];
          if counted {
            gauge := gauge + 1;
          } else {
            lost := lost + 1;
          }
        }
      }
    }

    /** `Transition`: `found` is false for an unknown case, which leaves everything as it was; the gauge is
        adjusted before the save, so it keeps the change when the save fails. */
    method Transition(id: nat, to: CaseStatus, assignee: Option<string>, actor: string, notes: Option<string>, saved: bool)
      returns (found: bool)
      requires Inv(Abs())
      modifies this
      ensures found == (id in old(cases)) && (!found ==> Abs() == old(Abs()))
      ensures Abs() == Apply(old(Abs()), Move(id, to, assignee, actor, notes, saved)) && Inv(Abs())
      ensures id in old(cases) ==>
        var from, lowered := old(cases)[id].status, {CaseStatus.Open, Assigned, Investigating, Escalated};
        gauge == old(gauge) - if to == ConfirmedFraud || (to in {FalsePositive, Closed} && from in lowered) then 1 else 0
      ensures id in old(cases) && !saved ==> cases == old(cases) && history == old(history)
      ensures id in old(cases) && saved ==>
        var before := old(cases)[id];
        && cases.Keys == old(cases).Keys && (forall other :: other in cases && other != id ==> cases[other] == old(cases)[other])
        && cases[id].transactionId == before.transactionId
        && cases[id].score == before.score && cases[id].level == before.level
        && cases[id].status == to
        && cases[id].decision == (match to
                                  case ConfirmedFraud => Some(Block)
                                  case FalsePositive => Some(Approve)
                                  case _ => before.decision)
        && cases[id].analyst == (if assignee.None? || IsWhiteSpace(assignee.value) then before.analyst else assignee)
        && history == old(history) + [Entry(id, before.status, to, actor, notes)]
    {
      hide Inv;
      InvStep(Abs(), Move(id, to, assignee, actor, notes, saved));
      found := id in cases;
      if !found {
        return;
      }
      var row := cases[id];
      var from := row.status;
      row := row.(status := to);
      if assignee.Some? && !IsWhiteSpace(assignee.value) {
        row := row.(analyst := assignee);
      }
      if to == ConfirmedFraud {
        row := row.(decision := Some(Block));
        gauge := gauge - 1;
        lost := if saved then lost else lost + 1;
      } else if to == FalsePositive || to == Closed {
        row := row.(decision := if to == FalsePositive then Some(Approve) else row.decision);
        if from != Closed && from != ConfirmedFraud && from != FalsePositive {
          gauge := gauge - 1;
          lost := if saved then lost else lost + 1;
        }
      }
      if saved {
        cases := cases[id := row];
        history := history + [Entry(id, from, to, actor, notes)];
      }
    }
  }
}
