/** The activation endpoint and the caching rule provider as they update their state. */
module RulesetStore {
  import opened Text
  import opened Rules
  import opened Rulesets

  class RulesetDb {
    var versions: map<string, VersionRow>
    var rows: seq<RuleRow>

    ghost function Abs(): Tables
      reads this
    {
      Tables(versions, rows)
    }

    constructor (seeded: Tables)
      ensures Abs() == seeded
    {
      versions, rows := seeded.versions, seeded.rows;
    }

    /** One activation that no other overlaps; a unique key violation saves nothing. */
    method Activate(version: string, rules: seq<Parameters>, now: int) returns (created: bool)
      requires RowsInv(Abs())
      modifies this
      ensures created == !Rejected(old(Abs()), version, rules)
      ensures Abs() == Committed(old(Abs()), ActiveVersions(old(Abs())), version, rules, now)
      ensures RowsInv(Abs())
      ensures created ==> ActiveVersions(Abs()) == {version} && RulesOf(rows, version) == rules
      ensures forall v :: v in old(versions) ==> v in versions && RulesOf(rows, v) == RulesOf(old(rows), v)
      ensures !created ==> versions == old(versions) && rows == old(rows)
      ensures created ==>
        && version !in old(versions) && versions.Keys == old(versions).Keys + {version}
        && versions[version] == VersionRow(true, now)
        && (forall v :: v in old(versions) ==> versions[v] == VersionRow(false, old(versions)[v].createdAt))
        && |rows| == |old(rows)| + |rules| && old(rows) <= rows
        && (forall i :: 0 <= i < |rules| ==> rows[|old(rows)| + i] == RuleRow(version, rules[i]))
    {
      hide UniqueRows, RulesOf, RowsInv;
      ghost var t := Abs();
      CommitRules(t, ActiveVersions(t), version, rules, now);
      CommitInv(t, ActiveVersions(t), version, rules, now);
      var staged := ClearActive();
      staged := staged[version := VersionRow(true, now)];
      var added := AddRules(version, rules);
      created := version !in versions && UniqueRows(added);
      if created {
        CommitFlags(t, ActiveVersions(t), version, rules, now);
        versions, rows := staged, added;
      }
    }

    /** The first loop: every version found active is cleared. */
    method ClearActive() returns (staged: map<string, VersionRow>)
      ensures staged == Cleared(versions, ActiveVersions(Abs()))
    {
      staged := versions;
      var active := set v | v in versions && versions[v].active;
      var left := active;
      while left != {}
        invariant left <= active && staged.Keys == versions.Keys
        invariant forall v :: v in versions ==>
          staged[v] == if v in active - left then versions[v].(active := false) else versions[v]
        decreases |left|
      {
        var v :| v in left;
        staged := staged[v := staged[v].(active := false)];
        left := left - {v};
      }
    }

    /** The second loop: one row for each rule of the request. */
    method AddRules(version: string, rules: seq<Parameters>) returns (added: seq<RuleRow>)
      ensures added == rows + NewRows(version, rules)
    {
      added := rows;
      for i := 0 to |rules|
        invariant added == rows + NewRows(version, rules[..i])
      {
        added := added + [RuleRow(version, rules[i])];
      }
      assert rules[..|rules|] == rules;
    }
  }

  /** Fifteen seconds. */
  const CACHE_TICKS := 150_000_000

  lemma {:induction false} NewestExists(t: Tables, among: set<string>) returns (newest: string)
    requires among != {} && among <= ActiveVersions(t)
    ensures newest in among && forall v :: v in among ==> t.versions[v].createdAt <= t.versions[newest].createdAt
    decreases |among|
  {
    var first :| first in among;
    var rest := among - {first};
    assert forall v :: v in among ==> v == first || v in rest;
    newest := first;
    if rest != {} {
      var other := NewestExists(t, rest);
      if t.versions[other].createdAt > t.versions[first].createdAt {
        newest := other;
      }
    }
  }

  lemma NewestMeaning(t: Tables, version: string)
    requires IsNewestActive(t, version)
    ensures t.versions[version].active
    ensures forall v :: v in t.versions && t.versions[v].active ==> t.versions[v].createdAt <= t.versions[version].createdAt
  {
    assert forall v :: v in t.versions && t.versions[v].active ==> v in ActiveVersions(t);
  }

  class RuleConfigurationProvider {
    const db: RulesetDb
    var cache: Option<Ruleset>
    var cacheUntil: int
    ghost var loadedAt: int

    /** The cache holds one whole version of the tables as they are now, even when that version is no longer
        active. */
    ghost predicate Valid()
      reads this, db
    {
      && RowsInv(db.Abs())
      && (cache.Some? ==>
            && cache.value.version in db.versions
            && cache.value == Resolve(db.Abs(), cache.value.version)
            && cacheUntil == loadedAt + CACHE_TICKS)
    }

    constructor (db: RulesetDb)
      requires RowsInv(db.Abs())
      ensures Valid() && cache.None? && this.db == db
    {
      this.db, cache, cacheUntil, loadedAt := db, None, 0, 0;
    }

    /**
     The active ruleset: complete, stored, and the newest active one at a moment less than fifteen seconds
     ago. With nothing cached and no active version the query throws.
     */
    method GetActive(now: int) returns (r: Option<Ruleset>)
      requires Valid()
      modifies this
      ensures Valid()
      ensures r.None? <==> !(old(cache).Some? && old(cacheUntil) > now) && ActiveVersions(db.Abs()) == {}
      ensures r.Some? ==>
        && cache == r && now - 150_000_000 < loadedAt && Serves(db.Abs(), r.value)
        && r.value.version in db.versions && r.value == Resolve(db.Abs(), r.value.version)
        && if old(cache).Some? && old(cacheUntil) > now
           then r == old(cache) && loadedAt == old(loadedAt)
           else
             && loadedAt == now && db.versions[r.value.version].active
             && forall v :: v in db.versions && db.versions[v].active ==>
                  db.versions[v].createdAt <= db.versions[r.value.version].createdAt
    {
      hide RulesOf, UniqueRows, Dictionary, Serves;
      if cache.Some? {
        ResolveServes(db.Abs(), cache.value.version);
      }
      if cache.Some? && cacheUntil > now {
        return cache;
      }
      if ActiveVersions(Tables(db.versions, db.rows)) == {} {
        return None;
      }
      ghost var newest := NewestExists(db.Abs(), ActiveVersions(db.Abs()));
      assert IsNewestActive(db.Abs(), newest);
      var version :| version in db.versions && IsNewestActive(Tables(db.versions, db.rows), version);
      ResolveServes(db.Abs(), version);
      NewestMeaning(db.Abs(), version);
      r := Some(Ruleset(version, Dictionary(RulesOf(db.rows, version))));
      cache, cacheUntil, loadedAt := r, now + CACHE_TICKS, now;
    }

    method Invalidate()
      requires Valid()
      modifies this
      ensures Valid() && cache.None?
    {
      cache, cacheUntil := None, 0;
    }
  }

  /** An activation leaves every cache valid: what it serves stays a whole stored version. */
  method ActivateBesideCache(provider: RuleConfigurationProvider, version: string, rules: seq<Parameters>, now: int)
    returns (created: bool)
    requires provider.Valid()
    modifies provider.db
    ensures provider.Valid() && provider.cache == old(provider.cache)
  {
    created := provider.db.Activate(version, rules, now);
  }
}
