/**
 Ruleset versions. Activation clears the active flags it has read and inserts the new version with its rules in
 one transaction; scoring reads the newest active version and, in a second query, the rules of that version.
 Any number of activators and scorers interleave.
 */
module Rulesets {
  import opened Text
  import opened Rules
  import opened Engine

  datatype VersionRow = VersionRow(active: bool, createdAt: int)

  datatype RuleRow = RuleRow(version: string, parameters: Parameters)

  /** `ruleset_versions` by key and `risk_rule_configurations` in insertion order. */
  datatype Tables = Tables(versions: map<string, VersionRow>, rows: seq<RuleRow>)

  /** What the engine is given: a version and its parameter sets by rule code. */
  datatype Ruleset = Ruleset(version: string, parameters: map<string, Parameters>)

  // ---- The tables ----

  function ActiveVersions(t: Tables): set<string> {
    set v | v in t.versions && t.versions[v].active
  }

  /** The parameter sets of one version. */
  function RulesOf(rows: seq<RuleRow>, version: string): seq<Parameters> {
    if rows == [] then []
    else
      var last := rows[|rows| - 1];
      RulesOf(rows[..|rows| - 1], version) + if last.version == version then [last.parameters] else []
  }

  function Dictionary(rules: seq<Parameters>): map<string, Parameters> {
    if rules == [] then map[]
    else Dictionary(rules[..|rules| - 1])[rules[|rules| - 1].ruleCode := rules[|rules| - 1]]
  }

  function Resolve(t: Tables, version: string): Ruleset {
    Ruleset(version, Dictionary(RulesOf(t.rows, version)))
  }

  function NewRows(version: string, rules: seq<Parameters>): seq<RuleRow> {
    seq(|rules|, i requires 0 <= i < |rules| => RuleRow(version, rules[i]))
  }

  /** The unique index on version and rule code. */
  predicate UniqueRows(rows: seq<RuleRow>) {
    forall i, j :: 0 <= i < j < |rows| ==>
      rows[i].version != rows[j].version || rows[i].parameters.ruleCode != rows[j].parameters.ruleCode
  }

  function Cleared(versions: map<string, VersionRow>, toClear: set<string>): map<string, VersionRow> {
    map v | v in versions :: if v in toClear then versions[v].(active := false) else versions[v]
  }

  /** The transaction violates a unique key and changes nothing. */
  predicate Rejected(t: Tables, version: string, rules: seq<Parameters>) {
    version in t.versions || !UniqueRows(t.rows + NewRows(version, rules))
  }

  function Committed(t: Tables, toClear: set<string>, version: string, rules: seq<Parameters>, now: int): Tables {
    if Rejected(t, version, rules) then t
    else
      Tables(Cleared(t.versions, toClear)[version := VersionRow(true, now)], t.rows + NewRows(version, rules))
  }

  predicate IsNewestActive(t: Tables, version: string) {
    && version in ActiveVersions(t)
    && forall v :: v in ActiveVersions(t) ==> t.versions[v].createdAt <= t.versions[version].createdAt
  }

  /** What the keys guarantee: rules are unique per version and belong to an existing one. */
  ghost predicate RowsInv(t: Tables) {
    UniqueRows(t.rows) && forall i :: 0 <= i < |t.rows| ==> t.rows[i].version in t.versions
  }

  ghost predicate TablesInv(t: Tables) {
    RowsInv(t) && ActiveVersions(t) != {}
  }

  lemma RulesSnoc(rows: seq<RuleRow>, row: RuleRow, v: string)
    ensures RulesOf(rows + [row], v) == RulesOf(rows, v) + if row.version == v then [row.parameters] else []
  {
    assert (rows + [row])[..|rows|] == rows;
  }

  lemma {:induction false} RulesOfNewRows(rows: seq<RuleRow>, version: string, rules: seq<Parameters>, v: string)
    ensures RulesOf(rows + NewRows(version, rules), v) == RulesOf(rows, v) + if v == version then rules else []
  {
    hide RulesOf;
    if rules == [] {
      assert rows + NewRows(version, rules) == rows;
    } else {
      var n := |rules| - 1;
      var front := rows + NewRows(version, rules[..n]);
      RulesOfNewRows(rows, version, rules[..n], v);
      assert rows + NewRows(version, rules) == front + [RuleRow(version, rules[n])];
      RulesSnoc(front, RuleRow(version, rules[n]), v);
      assert rules == rules[..n] + [rules[n]];
    }
  }

  lemma {:induction false} NoRows(rows: seq<RuleRow>, version: string)
    requires forall i :: 0 <= i < |rows| ==> rows[i].version != version
    ensures RulesOf(rows, version) == []
  {
    if rows != [] {
      NoRows(rows[..|rows| - 1], version);
    }
  }

  lemma RulesAfterCommit(t: Tables, toClear: set<string>, version: string, rules: seq<Parameters>, now: int, v: string)
    requires RowsInv(t) && !Rejected(t, version, rules)
    ensures var t' := Committed(t, toClear, version, rules, now);
            RulesOf(t'.rows, v) == if v == version then rules else RulesOf(t.rows, v)
  {
    hide UniqueRows, ActiveVersions, RulesOf;
    RulesOfNewRows(t.rows, version, rules, v);
    if v == version {
      NoRows(t.rows, version);
    } else {
      assert RulesOf(t.rows, v) + [] == RulesOf(t.rows, v);
    }
  }

  /** A commit keeps the rules of every existing version, and publishes exactly the requested rules. */
  lemma CommitRules(t: Tables, toClear: set<string>, version: string, rules: seq<Parameters>, now: int)
    requires RowsInv(t)
    ensures var t' := Committed(t, toClear, version, rules, now);
            && (forall v :: v in t.versions ==> v in t'.versions && RulesOf(t'.rows, v) == RulesOf(t.rows, v))
            && (!Rejected(t, version, rules) ==> RulesOf(t'.rows, version) == rules)
  {
    hide UniqueRows, ActiveVersions, RulesOf, RowsInv;
    if !Rejected(t, version, rules) {
      forall v
        ensures var t' := Committed(t, toClear, version, rules, now);
                RulesOf(t'.rows, v) == if v == version then rules else RulesOf(t.rows, v)
      {
        RulesAfterCommit(t, toClear, version, rules, now, v);
      }
    }
  }

  /** A commit that is not rejected leaves the flags it had not read, and the new version active. */
  lemma CommitFlags(t: Tables, toClear: set<string>, version: string, rules: seq<Parameters>, now: int)
    requires RowsInv(t) && !Rejected(t, version, rules)
    ensures ActiveVersions(Committed(t, toClear, version, rules, now)) == ActiveVersions(t) - toClear + {version}
  {
  }

  lemma CommitInv(t: Tables, toClear: set<string>, version: string, rules: seq<Parameters>, now: int)
    requires RowsInv(t)
    ensures RowsInv(Committed(t, toClear, version, rules, now))
    ensures TablesInv(t) ==> TablesInv(Committed(t, toClear, version, rules, now))
  {
    if !Rejected(t, version, rules) {
      CommitFlags(t, toClear, version, rules, now);
      assert version in ActiveVersions(Committed(t, toClear, version, rules, now));
    }
  }

  /** MAIN: an activation leaves exactly one active version if and only if it had read every flag that is set when
      it commits. */
  lemma OneActiveIff(t: Tables, toClear: set<string>, version: string, rules: seq<Parameters>, now: int)
    requires RowsInv(t) && !Rejected(t, version, rules)
    ensures |ActiveVersions(Committed(t, toClear, version, rules, now))| == 1 <==> ActiveVersions(t) <= toClear
  {
    CommitFlags(t, toClear, version, rules, now);
    var left := ActiveVersions(t) - toClear;
    assert version !in left;
    assert |left + {version}| == |left| + 1;
    if |left| == 0 {
      assert left == {};
      forall v | v in ActiveVersions(t) ensures v in toClear {
        assert v !in left;
      }
    }
  }

  // ---- What a ruleset holds, row by row ----

  /** `r` maps the code of every rule row of its version, enabled or not, to exactly that row, and holds nothing
      else. */
  ghost predicate Serves(t: Tables, r: Ruleset) {
    && (forall i :: 0 <= i < |t.rows| && t.rows[i].version == r.version ==> HasEntry(r, t.rows[i].parameters))
    && (forall code :: code in r.parameters ==> ComesFromRow(t, r.version, code, r.parameters[code]))
  }

  predicate HasEntry(r: Ruleset, p: Parameters) {
    p.ruleCode in r.parameters && r.parameters[p.ruleCode] == p
  }

  ghost predicate ComesFromRow(t: Tables, version: string, code: string, p: Parameters) {
    p.ruleCode == code && exists i :: 0 <= i < |t.rows| && t.rows[i] == RuleRow(version, p)
  }

  lemma {:induction false} RulesOfMembers(rows: seq<RuleRow>, version: string)
    ensures forall p :: p in RulesOf(rows, version) <==> RuleRow(version, p) in rows
  {
    if rows != [] {
      var n := |rows| - 1;
      RulesOfMembers(rows[..n], version);
      assert rows == rows[..n] + [rows[n]];
    }
  }

  lemma {:induction false} RulesOfDiffer(rows: seq<RuleRow>, version: string)
    requires UniqueRows(rows)
    ensures DistinctCodes(RulesOf(rows, version))
  {
    if rows != [] {
      var n := |rows| - 1;
      var front := RulesOf(rows[..n], version);
      RulesOfDiffer(rows[..n], version);
      RulesOfMembers(rows[..n], version);
      forall i | 0 <= i < |front| ensures rows[n].version == version ==> front[i].ruleCode != rows[n].parameters.ruleCode {
        assert front[i] in front;
        var k :| 0 <= k < n && rows[..n][k] == RuleRow(version, front[i]);
        assert rows[k].version == version;
      }
    }
  }

  ghost predicate DistinctCodes(rules: seq<Parameters>) {
    forall i, j :: 0 <= i < j < |rules| ==> rules[i].ruleCode != rules[j].ruleCode
  }

  /** The dictionary of distinct codes has one entry for each rule. */
  lemma {:induction false} DictionaryHolds(rules: seq<Parameters>)
    requires DistinctCodes(rules)
    ensures forall p :: p in rules ==> p.ruleCode in Dictionary(rules) && Dictionary(rules)[p.ruleCode] == p
    ensures forall code :: code in Dictionary(rules) ==>
              Dictionary(rules)[code] in rules && Dictionary(rules)[code].ruleCode == code
  {
    if rules != [] {
      hide Dictionary;
      var n := |rules| - 1;
      var front := rules[..n];
      DictionaryHolds(front);
      DictionarySnoc(rules);
      forall p | p in rules ensures p.ruleCode in Dictionary(rules) && Dictionary(rules)[p.ruleCode] == p {
        var i :| 0 <= i < |rules| && rules[i] == p;
        if i < n {
          assert front[i] == p && p in front;
        }
      }
      forall code | code in Dictionary(rules)
        ensures Dictionary(rules)[code] in rules && Dictionary(rules)[code].ruleCode == code
      {
        if code != rules[n].ruleCode {
          assert Dictionary(front)[code] in front;
        }
      }
    }
  }

  lemma DictionarySnoc(rules: seq<Parameters>)
    requires rules != []
    ensures Dictionary(rules) == Dictionary(rules[..|rules| - 1])[rules[|rules| - 1].ruleCode := rules[|rules| - 1]]
  {
  }

  /** MAIN: a resolved version serves exactly its rows. */
  lemma ResolveServes(t: Tables, version: string)
    requires RowsInv(t)
    ensures Serves(t, Resolve(t, version))
  {
    hide UniqueRows, RulesOf, Dictionary;
    var rules, r := RulesOf(t.rows, version), Resolve(t, version);
    RulesOfMembers(t.rows, version);
    RulesOfDiffer(t.rows, version);
    DictionaryHolds(rules);
    forall i | 0 <= i < |t.rows| && t.rows[i].version == version ensures HasEntry(r, t.rows[i].parameters) {
      assert t.rows[i] == RuleRow(version, t.rows[i].parameters);
      assert t.rows[i] in t.rows;
    }
    forall code | code in r.parameters ensures ComesFromRow(t, version, code, r.parameters[code]) {
      assert r.parameters[code] in rules;
      assert RuleRow(version, r.parameters[code]) in t.rows;
    }
  }

  /** What a rule is asked with under a served ruleset: its row, with the row's own flag, or the default for a code
      without a row. */
  lemma ServedParameters(t: Tables, r: Ruleset, c: Context, code: string)
    requires Serves(t, r) && c.parameters == r.parameters
    ensures forall i :: 0 <= i < |t.rows| && t.rows[i].version == r.version && t.rows[i].parameters.ruleCode == code ==>
              ParametersFor(c, code) == t.rows[i].parameters
    ensures (forall i :: 0 <= i < |t.rows| && t.rows[i].version == r.version ==> t.rows[i].parameters.ruleCode != code) ==>
              ParametersFor(c, code).enabled && ParametersFor(c, code).score == 0
  {
    forall i | 0 <= i < |t.rows| && t.rows[i].version == r.version && t.rows[i].parameters.ruleCode == code
      ensures ParametersFor(c, code) == t.rows[i].parameters
    {
      assert HasEntry(r, t.rows[i].parameters);
    }
    if code in r.parameters {
      assert ComesFromRow(t, r.version, code, r.parameters[code]);
    }
  }

  // ---- Interleaved activations and scorings ----

  datatype Activator = Resting | Read(toClear: set<string>)

  datatype Phase = Waiting | Picked(version: string) | Ready(ruleset: Ruleset)

  /** A scoring worker with the `_cache` of its provider. */
  datatype Scorer = Scorer(cache: Option<Ruleset>, phase: Phase)

  /** A stored decision: its `RulesetVersion`, and what was evaluated. */
  datatype ScoredDecision = ScoredDecision(version: string, rules: seq<Rule>, context: Context, model: Model, evaluation: Evaluation)

  /** `published` remembers what every version was created with. */
  datatype State = State(
    tables: Tables,
    published: map<string, seq<Parameters>>,
    activators: map<nat, Activator>,
    scorers: map<nat, Scorer>,
    stored: seq<ScoredDecision>)

  datatype Step =
    | ReadActive(a: nat)
    | Commit(a: nat, version: string, rules: seq<Parameters>, now: int)
    | Abandon(a: nat)
    | UseCache(w: nat)
    | Pick(w: nat, version: string)
    | Load(w: nat)
    | Store(w: nat, engine: seq<Rule>, context: Context, model: Model)
    | Forget(w: nat)

  function ActivatorAt(s: State, a: nat): Activator {
    if a in s.activators then s.activators[a] else Resting
  }

  function ScorerAt(s: State, w: nat): Scorer {
    if w in s.scorers then s.scorers[w] else Scorer(None, Waiting)
  }

  function Scored(s: State, step: Step): ScoredDecision
    requires step.Store? && ScorerAt(s, step.w).phase.Ready?
  {
    var ruleset := ScorerAt(s, step.w).phase.ruleset;
    ScoredDecision(
      ruleset.version, step.engine, step.context, step.model,
      Evaluate(step.engine, step.context.(parameters := ruleset.parameters), step.model))
  }

  ghost predicate Enabled(s: State, step: Step) {
    match step
    case ReadActive(a) => true
    case Commit(a, _, _, _) => ActivatorAt(s, a).Read?
    case Abandon(_) => true
    case UseCache(w) => ScorerAt(s, w).cache.Some?
    case Pick(_, version) => IsNewestActive(s.tables, version)
    case Load(w) => ScorerAt(s, w).phase.Picked?
    case Store(w, _, _, _) => ScorerAt(s, w).phase.Ready? && Scored(s, step).evaluation.Evaluated?
    case Forget(_) => true
  }

  ghost function Apply(s: State, step: Step): State
    requires Enabled(s, step)
  {
    match step
    case ReadActive(a) => s.(activators := s.activators[a := Read(ActiveVersions(s.tables))])
    case Commit(a, version, rules, now) =>
      s.(tables := Committed(s.tables, ActivatorAt(s, a).toClear, version, rules, now),
         published := if Rejected(s.tables, version, rules) then s.published else s.published[version := rules],
         activators := s.activators[a := Resting])
    case Abandon(a) => s.(activators := s.activators[a := Resting])
    case UseCache(w) => s.(scorers := s.scorers[w := ScorerAt(s, w).(phase := Ready(ScorerAt(s, w).cache.value))])
    case Pick(w, version) => s.(scorers := s.scorers[w := ScorerAt(s, w).(phase := Picked(version))])
    case Load(w) =>
      var ruleset := Resolve(s.tables, ScorerAt(s, w).phase.version);
      s.(scorers := s.scorers[w := Scorer(Some(ruleset), Ready(ruleset))])
    case Store(w, _, _, _) => s.(stored := s.stored + [Scored(s, step)])
    case Forget(w) => s.(scorers := s.scorers[w := Scorer(None, Waiting)])
  }

  ghost predicate ValidRun(s: State, steps: seq<Step>)
    decreases |steps|
  {
    steps == [] || (Enabled(s, steps[0]) && ValidRun(Apply(s, steps[0]), steps[1..]))
  }

  ghost function Run(s: State, steps: seq<Step>): State
    requires ValidRun(s, steps)
    decreases |steps|
  {
    if steps == [] then s else Run(Apply(s, steps[0]), steps[1..])
  }

  /** The seeded database before anybody works on it. */
  ghost predicate Initial(s: State) {
    && TablesInv(s.tables)
    && s.published.Keys == s.tables.versions.Keys
    && (forall v :: v in s.published ==> s.published[v] == RulesOf(s.tables.rows, v))
    && s.activators == map[] && s.scorers == map[] && s.stored == []
  }

  /** The whole of one existing version. */
  ghost predicate Whole(s: State, r: Ruleset) {
    r.version in s.published && r.parameters == Dictionary(s.published[r.version])
  }

  ghost predicate ScorerSound(s: State, scorer: Scorer) {
    && (scorer.cache.Some? ==> Whole(s, scorer.cache.value))
    && (scorer.phase.Picked? ==> scorer.phase.version in s.published)
    && (scorer.phase.Ready? ==> Whole(s, scorer.phase.ruleset))
  }

  /** The decision is what the engine says under the rules its version was published with. */
  ghost predicate Replays(s: State, d: ScoredDecision) {
    && d.version in s.published
    && d.evaluation == Evaluate(d.rules, d.context.(parameters := Dictionary(s.published[d.version])), d.model)
  }

  ghost predicate TablesMatch(s: State) {
    && TablesInv(s.tables)
    && s.published.Keys == s.tables.versions.Keys
    && (forall v :: v in s.published ==> s.published[v] == RulesOf(s.tables.rows, v))
  }

  ghost predicate Inv(s: State) {
    && TablesMatch(s)
    && (forall w :: ScorerSound(s, ScorerAt(s, w)))
    && (forall i :: 0 <= i < |s.stored| ==> Replays(s, s.stored[i]))
  }

  /** Versions are only ever added, with rows of their own. */
  ghost predicate Extends(s: State, s': State) {
    && (forall v :: v in s.published ==> v in s'.published && s'.published[v] == s.published[v])
    && s.tables.rows <= s'.tables.rows
    && (forall i :: |s.tables.rows| <= i < |s'.tables.rows| ==> s'.tables.rows[i].version !in s.published)
  }

  lemma TablesStep(s: State, step: Step)
    requires TablesMatch(s) && Enabled(s, step)
    ensures TablesMatch(Apply(s, step)) && Extends(s, Apply(s, step))
  {
    hide UniqueRows, RulesOf, IsNewestActive, Scored;
    if step.Commit? {
      var toClear := ActivatorAt(s, step.a).toClear;
      CommitRules(s.tables, toClear, step.version, step.rules, step.now);
      CommitInv(s.tables, toClear, step.version, step.rules, step.now);
    }
  }

  lemma ScorerStep(s: State, step: Step, w: nat)
    requires TablesMatch(s) && Enabled(s, step) && ScorerSound(s, ScorerAt(s, w)) && Extends(s, Apply(s, step))
    ensures ScorerSound(Apply(s, step), ScorerAt(Apply(s, step), w))
  {
    hide UniqueRows, RulesOf, Scored, Dictionary, Committed;
  }

  lemma StoreStep(s: State, step: Step)
    requires Inv(s) && Enabled(s, step) && Extends(s, Apply(s, step))
    ensures forall i :: 0 <= i < |Apply(s, step).stored| ==> Replays(Apply(s, step), Apply(s, step).stored[i])
  {
    hide UniqueRows, RulesOf, Dictionary, Committed, Evaluate, TablesMatch;
    if step.Store? {
      assert ScorerSound(s, ScorerAt(s, step.w));
    }
  }

  lemma InvStep(s: State, step: Step)
    requires Inv(s) && Enabled(s, step)
    ensures Inv(Apply(s, step)) && Extends(s, Apply(s, step))
  {
    hide TablesMatch, Apply, ScorerSound, Replays, Extends;
    TablesStep(s, step);
    StoreStep(s, step);
    forall w ensures ScorerSound(Apply(s, step), ScorerAt(Apply(s, step), w)) {
      ScorerStep(s, step, w);
    }
  }

  lemma {:induction false} InvRun(s: State, steps: seq<Step>)
    requires Inv(s) && ValidRun(s, steps)
    ensures Inv(Run(s, steps)) && Extends(s, Run(s, steps))
    decreases |steps|
  {
    hide Inv, Apply, Enabled;
    if steps != [] {
      InvStep(s, steps[0]);
      InvRun(Apply(s, steps[0]), steps[1..]);
    }
  }

  lemma InitialInv(s: State)
    requires Initial(s)
    ensures Inv(s)
  {
  }

  /** MAIN: in every interleaving, scoring only ever holds one complete version, every stored decision is what the
      engine says under the rules now stored for its version, and some version is active. */
  lemma ScoringUsesWholeVersions(init: State, steps: seq<Step>)
    requires Initial(init) && ValidRun(init, steps)
    ensures var s := Run(init, steps);
            && ActiveVersions(s.tables) != {}
            && (forall w :: ScorerAt(s, w).phase.Ready? ==>
                  var r := ScorerAt(s, w).phase.ruleset;
                  r.version in s.tables.versions && r == Resolve(s.tables, r.version) && Serves(s.tables, r))
            && (forall d :: d in s.stored ==>
                  && d.version in s.tables.versions && Serves(s.tables, Resolve(s.tables, d.version))
                  && d.evaluation ==
                     Evaluate(d.rules, d.context.(parameters := Resolve(s.tables, d.version).parameters), d.model))
  {
    hide Initial, UniqueRows, RulesOf, Dictionary, Evaluate, ActiveVersions, Apply, Serves;
    InitialInv(init);
    InvRun(init, steps);
    var s := Run(init, steps);
    forall w | ScorerAt(s, w).phase.Ready?
      ensures var r := ScorerAt(s, w).phase.ruleset;
              r.version in s.tables.versions && r == Resolve(s.tables, r.version) && Serves(s.tables, r)
    {
      assert ScorerSound(s, ScorerAt(s, w));
      ResolveServes(s.tables, ScorerAt(s, w).phase.ruleset.version);
    }
    forall v ensures Serves(s.tables, Resolve(s.tables, v)) {
      ResolveServes(s.tables, v);
    }
  }

  /** MAIN: the rules of a version never change once it exists, whatever happens afterwards. */
  lemma RulesNeverChange(init: State, before: seq<Step>, after: seq<Step>, version: string)
    requires Initial(init) && ValidRun(init, before) && ValidRun(Run(init, before), after)
    requires version in Run(init, before).tables.versions
    ensures var s, s' := Run(init, before), Run(Run(init, before), after);
            && version in s'.tables.versions && RulesOf(s'.tables.rows, version) == RulesOf(s.tables.rows, version)
            && s.tables.rows <= s'.tables.rows
            && forall i :: |s.tables.rows| <= i < |s'.tables.rows| ==> s'.tables.rows[i].version != version
  {
    hide Initial, UniqueRows, RulesOf, ActiveVersions, Apply;
    InitialInv(init);
    InvRun(init, before);
    InvRun(Run(init, before), after);
  }

  // ---- Serial activations ----

  /** Between reading the flags and committing, no other activation reads. */
  ghost predicate Serial(s: State, steps: seq<Step>)
    requires ValidRun(s, steps)
    decreases |steps|
  {
    steps == [] ||
    ((steps[0].ReadActive? ==> forall b :: b != steps[0].a ==> ActivatorAt(s, b).Resting?) &&
     Serial(Apply(s, steps[0]), steps[1..]))
  }

  ghost predicate OneActive(s: State) {
    && |ActiveVersions(s.tables)| == 1
    && (forall a :: ActivatorAt(s, a).Read? ==> ActivatorAt(s, a).toClear == ActiveVersions(s.tables))
    && (forall a, b :: ActivatorAt(s, a).Read? && ActivatorAt(s, b).Read? ==> a == b)
  }

  lemma OneActiveStep(s: State, step: Step)
    requires TablesMatch(s) && OneActive(s) && Enabled(s, step)
    requires step.ReadActive? ==> forall b :: b != step.a ==> ActivatorAt(s, b).Resting?
    ensures OneActive(Apply(s, step))
  {
    hide UniqueRows, RulesOf, ActiveVersions, Committed, IsNewestActive, Scored, Resolve;
    if step.Commit? {
      var toClear := ActivatorAt(s, step.a).toClear;
      forall b ensures ActivatorAt(Apply(s, step), b).Resting? {
        assert ActivatorAt(s, b).Read? ==> b == step.a;
      }
      if Rejected(s.tables, step.version, step.rules) {
        RejectedKeeps(s.tables, toClear, step.version, step.rules, step.now);
      } else {
        OneActiveIff(s.tables, toClear, step.version, step.rules, step.now);
      }
    } else if step.ReadActive? {
      forall b ensures ActivatorAt(Apply(s, step), b).Read? ==> b == step.a {
        assert b != step.a ==> ActivatorAt(s, b).Resting?;
      }
    } else {
      forall b ensures ActivatorAt(Apply(s, step), b) == ActivatorAt(s, b) || ActivatorAt(Apply(s, step), b).Resting? {
      }
    }
  }

  lemma RejectedKeeps(t: Tables, toClear: set<string>, version: string, rules: seq<Parameters>, now: int)
    requires Rejected(t, version, rules)
    ensures Committed(t, toClear, version, rules, now) == t
  {
  }

  lemma {:induction false} OneActiveRun(s: State, steps: seq<Step>)
    requires Inv(s) && OneActive(s) && ValidRun(s, steps) && Serial(s, steps)
    ensures OneActive(Run(s, steps))
    decreases |steps|
  {
    hide OneActive, Apply, Enabled, TablesMatch;
    if steps != [] {
      OneActiveStep(s, steps[0]);
      InvStep(s, steps[0]);
      OneActiveRun(Apply(s, steps[0]), steps[1..]);
    }
  }

  /** MAIN: with serial activations exactly one version is active throughout. */
  lemma SerialKeepsOneActive(init: State, steps: seq<Step>)
    requires Initial(init) && |ActiveVersions(init.tables)| == 1
    requires ValidRun(init, steps) && Serial(init, steps)
    ensures |ActiveVersions(Run(init, steps).tables)| == 1
  {
    OneActiveRun(init, steps);
  }

  /** Two activations that read the same flags leave two active versions, from any tables with one. */
  lemma OverlapLeavesTwo(init: State, v: string, w: string, now: int)
    requires Initial(init) && |ActiveVersions(init.tables)| == 1
    requires v != w && v !in init.tables.versions && w !in init.tables.versions
    ensures var steps := [ReadActive(0), ReadActive(1), Commit(0, v, [], now), Commit(1, w, [], now)];
            ValidRun(init, steps) && ActiveVersions(Run(init, steps).tables) == {v, w}
  {
    var flags := ActiveVersions(init.tables);
    var s2 := Apply(Apply(init, ReadActive(0)), ReadActive(1));
    var s4 := OverlappingCommits(s2, flags, v, w, now);
    var commits := [Commit(0, v, [], now), Commit(1, w, [], now)];
    RunCons(Apply(init, ReadActive(0)), ReadActive(1), commits);
    RunCons(init, ReadActive(0), [ReadActive(1)] + commits);
    assert [ReadActive(0)] + ([ReadActive(1)] + commits)
           == [ReadActive(0), ReadActive(1), Commit(0, v, [], now), Commit(1, w, [], now)];
  }

  lemma OverlappingCommits(s: State, flags: set<string>, v: string, w: string, now: int) returns (s': State)
    requires TablesInv(s.tables) && flags == ActiveVersions(s.tables)
    requires ActivatorAt(s, 0) == Read(flags) && ActivatorAt(s, 1) == Read(flags)
    requires v != w && v !in s.tables.versions && w !in s.tables.versions
    ensures var steps := [Commit(0, v, [], now), Commit(1, w, [], now)];
            ValidRun(s, steps) && s' == Run(s, steps) && ActiveVersions(s'.tables) == {v, w}
  {
    hide RulesOf, ActiveVersions;
    assert NewRows(v, []) == [] == NewRows(w, []);
    assert s.tables.rows + [] == s.tables.rows;
    CommitFlags(s.tables, flags, v, [], now);
    CommitInv(s.tables, flags, v, [], now);
    OldFlag(s.tables, v);
    var s1 := Apply(s, Commit(0, v, [], now));
    assert ActivatorAt(s1, 1) == Read(flags) && s1.tables.rows == s.tables.rows;
    CommitFlags(s1.tables, flags, w, [], now);
    s' := Apply(s1, Commit(1, w, [], now));
    EmptyRun(s');
    RunCons(s1, Commit(1, w, [], now), []);
    RunCons(s, Commit(0, v, [], now), [Commit(1, w, [], now)]);
    assert [Commit(0, v, [], now)] + [Commit(1, w, [], now)] == [Commit(0, v, [], now), Commit(1, w, [], now)];
  }

  lemma EmptyRun(s: State)
    ensures ValidRun(s, []) && Run(s, []) == s
  {
  }

  lemma RunCons(s: State, step: Step, rest: seq<Step>)
    requires Enabled(s, step) && ValidRun(Apply(s, step), rest)
    ensures ValidRun(s, [step] + rest) && Run(s, [step] + rest) == Run(Apply(s, step), rest)
  {
    assert ([step] + rest)[1..] == rest;
  }

  lemma OldFlag(t: Tables, v: string)
    requires v !in t.versions
    ensures v !in ActiveVersions(t)
  {
  }
}
