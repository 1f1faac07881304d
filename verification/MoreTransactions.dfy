/** One more recorded transaction never softens the verdict on the next one. */
module MoreTransactions {
  import opened Text
  import opened VelocityStore
  import opened VelocityRefinement
  import opened ListRefinement
  import Rules
  import Engine
  import M = Monotonicity

  lemma {:induction false} SinceConcat(a: seq<Tx>, b: seq<Tx>, from: int)
    ensures Since(a + b, from) == Since(a, from) + Since(b, from)
  {
    if b == [] {
      assert a + b == a;
    } else {
      assert (a + b)[..|a + b| - 1] == a + b[..|b| - 1];
      SinceConcat(a, b[..|b| - 1], from);
    }
  }

  lemma {:induction false} FailuresConcat(a: seq<Tx>, b: seq<Tx>)
    ensures Failures(a + b) == Failures(a) + Failures(b)
  {
    if b == [] {
      assert a + b == a;
    } else {
      assert (a + b)[..|a + b| - 1] == a + b[..|b| - 1];
      FailuresConcat(a, b[..|b| - 1]);
    }
  }

  lemma Subset(a: set<string>, b: set<string>)
    requires a <= b
    ensures |a| <= |b|
  {
    assert b == a + (b - a);
  }

  /** Every window keeps what it had. */
  lemma WindowsGrow(a: seq<Tx>, x: Tx, b: seq<Tx>, from: int)
    ensures |Since(a + b, from)| <= |Since(a + [x] + b, from)|
    ensures Failures(Since(a + b, from)) <= Failures(Since(a + [x] + b, from))
    ensures |Countries(Since(a + b, from))| <= |Countries(Since(a + [x] + b, from))|
    ensures |Merchants(Since(a + b, from))| <= |Merchants(Since(a + [x] + b, from))|
  {
    hide Since, Failures, Fold;
    var p, m, q := Since(a, from), Since([x], from), Since(b, from);
    SinceConcat(a, b, from);
    SinceConcat(a + [x], b, from);
    SinceConcat(a, [x], from);
    FailuresConcat(p, q);
    FailuresConcat(p + m, q);
    FailuresConcat(p, m);
    var few, many := p + q, p + m + q;
    forall i | 0 <= i < |few| ensures exists j :: 0 <= j < |many| && many[j] == few[i] {
      var j := if i < |p| then i else i + |m|;
      assert many[j] == few[i];
    }
    Subset(Countries(few), Countries(many));
    Subset(Merchants(few), Merchants(many));
  }

  /** MAIN: recording an extra transaction anywhere in the account's history raises the counters the rules
      read, hence never softens the verdict of the thirteen rules. */
  lemma ExtraTransactionNeverSoftens(
    a: seq<Tx>, x: Tx, b: seq<Tx>, now: int, currency: string, c: Rules.Context, m: Engine.Model)
    requires ListSnapshot(a + b, now, currency).Some? && ListSnapshot(a + [x] + b, now, currency).Some?
    requires Rules.ParametersFor(c, Rules.DecisionPolicy.HIGH_VELOCITY).enabled ==>
               Rules.ParametersFor(c, Rules.DecisionPolicy.HIGH_VELOCITY).score <= 50
    ensures var v, v' := ListSnapshot(a + b, now, currency).value, ListSnapshot(a + [x] + b, now, currency).value;
            var e := Engine.Evaluate(Rules.Catalogue(), c.(velocity := v), m);
            var e' := Engine.Evaluate(Rules.Catalogue(), c.(velocity := v'), m);
            M.Faster(v, v') && (Engine.Harmless(e', m) ==> Engine.NoHarsher(e, e'))
  {
    hide Engine.Evaluate, Spend, Since, Failures, Countries, Merchants;
    WindowsGrow(a, x, b, Ago(now, MINUTE));
    WindowsGrow(a, x, b, Ago(now, 5 * MINUTE));
    WindowsGrow(a, x, b, Ago(now, 15 * MINUTE));
    WindowsGrow(a, x, b, Ago(now, 30 * MINUTE));
    var v, v' := ListSnapshot(a + b, now, currency).value, ListSnapshot(a + [x] + b, now, currency).value;
    var c0 := c.(velocity := v);
    assert c0.(velocity := v') == c.(velocity := v');
    M.VelocityNeverSoftens(c0, v', m);
  }

  /** MAIN: the same for the replies of the Redis store, on regular histories: scoring the last transaction of `a + b`
      with one more transaction recorded before it never softens its verdict. */
  lemma ExtraTransactionNeverSoftensRedis(a: seq<Tx>, x: Tx, b: seq<Tx>, c: Rules.Context, m: Engine.Model)
    requires b != [] && Regular(a + b) && Regular(a + [x] + b)
    requires Rules.ParametersFor(c, Rules.DecisionPolicy.HIGH_VELOCITY).enabled ==>
               Rules.ParametersFor(c, Rules.DecisionPolicy.HIGH_VELOCITY).score <= 50
    ensures var t := Last(b);
            var r := SetsSnapshot(Kept(a + b), Ms(t.time), t.amount.currency);
            var r' := SetsSnapshot(Kept(a + [x] + b), Ms(t.time), t.amount.currency);
            && r.Some? && r'.Some? && M.Faster(r.value, r'.value)
            && var e := Engine.Evaluate(Rules.Catalogue(), c.(velocity := r.value), m);
               var e' := Engine.Evaluate(Rules.Catalogue(), c.(velocity := r'.value), m);
               Engine.Harmless(e', m) ==> Engine.NoHarsher(e, e')
  {
    hide Engine.Evaluate, SetsSnapshot, ListSnapshot, Kept, Regular, M.Faster, Engine.Harmless, Engine.NoHarsher;
    var t := Last(b);
    assert Last(a + b) == t && Last(a + [x] + b) == t;
    StoresAgree(a + b);
    StoresAgree(a + [x] + b);
    ExtraTransactionNeverSoftens(a, x, b, t.time, t.amount.currency, c, m);
  }
}
