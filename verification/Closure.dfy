/** The unlock loop of the loyalty service as a least fixpoint of the achievement rules. */
module Closure {
  import opened Json
  import opened Rules
  import opened Collections

  datatype AchievementConfig = AchievementConfig(id: string, name: string, rule: Json)

  datatype Stats = Stats(purchaseCount: int, totalSpendKobo: int)

  predicate DistinctIds(configs: seq<AchievementConfig>) {
    forall i, j | 0 <= i < j < |configs| :: configs[i].id != configs[j].id
  }

  function Ids(configs: seq<AchievementConfig>): (r: set<string>) {
    set c | c in configs :: c.id
  }

  predicate StatsLeq(a: Stats, b: Stats) {
    a.purchaseCount <= b.purchaseCount && a.totalSpendKobo <= b.totalSpendKobo
  }

  predicate Fires(coerce: Coercion, c: AchievementConfig, stats: Stats, s: set<string>) {
    Holds(coerce, c.rule, Context(stats.purchaseCount, stats.totalSpendKobo, s))
  }

  predicate Closed(coerce: Coercion, configs: seq<AchievementConfig>, stats: Stats, s: set<string>) {
    forall c | c in configs && Fires(coerce, c, stats, s) :: c.id in s
  }

  /** s contains the existing unlocks, is closed under the rules, and is contained in every such set. */
  ghost predicate IsLeastClosure(coerce: Coercion, configs: seq<AchievementConfig>, stats: Stats, base: set<string>,
      s: set<string>) {
    && base <= s
    && Closed(coerce, configs, stats, s)
    && BelowAllClosed(coerce, configs, stats, base, s)
  }

  ghost predicate BelowAllClosed(coerce: Coercion, configs: seq<AchievementConfig>, stats: Stats, base: set<string>,
      s: set<string>) {
    forall t: set<string> | base <= t && Closed(coerce, configs, stats, t) :: s <= t
  }

  lemma LeastClosureUnique(coerce: Coercion, configs: seq<AchievementConfig>, stats: Stats, base: set<string>,
      s: set<string>, t: set<string>)
    requires IsLeastClosure(coerce, configs, stats, base, s) && IsLeastClosure(coerce, configs, stats, base, t)
    ensures s == t
  {
    assert s <= t && t <= s;
  }

  /** Adding the id of a rule that fires keeps the candidate below every closed set. */
  lemma FiringStaysBelow(coerce: Coercion, configs: seq<AchievementConfig>, stats: Stats, base: set<string>,
      s: set<string>, c: AchievementConfig)
    requires c in configs && Fires(coerce, c, stats, s)
    requires BelowAllClosed(coerce, configs, stats, base, s)
    ensures BelowAllClosed(coerce, configs, stats, base, s + {c.id})
  {
    forall t: set<string> | base <= t && Closed(coerce, configs, stats, t) ensures s + {c.id} <= t {
      assert s <= t;
      FiresMonotone(coerce, c, stats, s, stats, t);
    }
  }

  lemma FiresMonotone(coerce: Coercion, c: AchievementConfig, stats: Stats, s: set<string>, stats': Stats,
      s': set<string>)
    requires StatsLeq(stats, stats') && s <= s' && Fires(coerce, c, stats, s)
    ensures Fires(coerce, c, stats', s')
  {
    HoldsMonotone(coerce, c.rule, Context(stats.purchaseCount, stats.totalSpendKobo, s),
                  Context(stats'.purchaseCount, stats'.totalSpendKobo, s'));
  }

  // ---------------------------------------------------------------- the loop

  /** Every config examined so far is settled: unlocked already, or not satisfied by s. */
  predicate Settled(coerce: Coercion, configs: seq<AchievementConfig>, stats: Stats, s: set<string>, n: nat)
    requires n <= |configs|
  {
    forall j | 0 <= j < n :: configs[j].id in s || !Fires(coerce, configs[j], stats, s)
  }

  predicate BrokenAreFaulty(coerce: Coercion, configs: seq<AchievementConfig>, broken: set<string>) {
    forall c | c in configs && c.id in broken :: Faulty(coerce, c.rule)
  }

  predicate RowsMatch(base: set<string>, unlocked: set<string>, newIds: seq<string>) {
    base <= unlocked && NoRepeats(newIds) && Elements(newIds) == unlocked - base
  }

  lemma RowsMatchAppend(base: set<string>, unlocked: set<string>, newIds: seq<string>, id: string)
    requires RowsMatch(base, unlocked, newIds) && id !in unlocked
    ensures RowsMatch(base, unlocked + {id}, newIds + [id])
  {
    assert id !in Elements(newIds);
    assert Elements(newIds + [id]) == Elements(newIds) + {id};
  }

  lemma BrokenAdd(coerce: Coercion, configs: seq<AchievementConfig>, broken: set<string>, i: nat)
    requires DistinctIds(configs) && i < |configs|
    requires BrokenAreFaulty(coerce, configs, broken) && Faulty(coerce, configs[i].rule)
    ensures BrokenAreFaulty(coerce, configs, broken + {configs[i].id})
  {
  }

  /** One execution of the inner for loop: the body of the do/while. */
  method UnlockPass(coerce: Coercion, configs: seq<AchievementConfig>, stats: Stats, ghost base: set<string>,
                    unlocked0: set<string>, broken0: set<string>, newIds0: seq<string>)
    returns (unlocked: set<string>, broken: set<string>, newIds: seq<string>, unlockedInPass: bool)
    requires DistinctIds(configs)
    requires BelowAllClosed(coerce, configs, stats, base, unlocked0)
    requires BrokenAreFaulty(coerce, configs, broken0)
    requires RowsMatch(base, unlocked0, newIds0)
    ensures unlocked0 <= unlocked <= unlocked0 + Ids(configs)
    ensures BelowAllClosed(coerce, configs, stats, base, unlocked)
    ensures BrokenAreFaulty(coerce, configs, broken)
    ensures RowsMatch(base, unlocked, newIds)
    ensures unlockedInPass <==> unlocked != unlocked0
    ensures !unlockedInPass ==> Closed(coerce, configs, stats, unlocked)
  {
    unlocked, broken, newIds, unlockedInPass := unlocked0, broken0, newIds0, false;
    for i := 0 to |configs|
      invariant unlocked0 <= unlocked <= unlocked0 + Ids(configs)
      invariant BelowAllClosed(coerce, configs, stats, base, unlocked)
      invariant BrokenAreFaulty(coerce, configs, broken)
      invariant RowsMatch(base, unlocked, newIds)
      invariant unlockedInPass <==> unlocked != unlocked0
      invariant !unlockedInPass ==> Settled(coerce, configs, stats, unlocked, i)
    {
      var config := configs[i];
      var context := Context(stats.purchaseCount, stats.totalSpendKobo, unlocked);
      if config.id in unlocked {
        continue;
      }
      if config.id in broken {
        FaultyNeverHolds(coerce, config.rule, context);
        continue;
      }
      match Evaluate(coerce, config.rule, context) {
        case Thrown =>
          ThrownIsFaulty(coerce, config.rule, context);
          BrokenAdd(coerce, configs, broken, i);
          broken := broken + {config.id};
        case Value(false) =>
        case Value(true) =>
          FiringStaysBelow(coerce, configs, stats, base, unlocked, config);
          RowsMatchAppend(base, unlocked, newIds, config.id);
          newIds := newIds + [config.id];
          unlocked := unlocked + {config.id};
          unlockedInPass := true;
      }
    }
  }

  /**
   * The do/while of handlePurchaseCompleted: repeats passes until one unlocks nothing. For every order
   * of the configs the result is the least closure, each new id is recorded once, and the number of
   * passes is at most one more than the number of configs.
   */
  method UnlockAchievements(coerce: Coercion, configs: seq<AchievementConfig>, stats: Stats, existing: set<string>)
    returns (unlocked: set<string>, newIds: seq<string>, passes: nat)
    requires DistinctIds(configs)
    ensures IsLeastClosure(coerce, configs, stats, existing, unlocked)
    ensures NoRepeats(newIds) && Elements(newIds) == unlocked - existing
    ensures 1 <= passes <= |configs| + 1
  {
    unlocked, newIds, passes := existing, [], 0;
    var broken: set<string> := {};
    var again := true;
    ghost var all := Ids(configs);
    IdsBound(configs);
    while again
      invariant existing <= unlocked <= existing + all
      invariant BelowAllClosed(coerce, configs, stats, existing, unlocked)
      invariant BrokenAreFaulty(coerce, configs, broken)
      invariant RowsMatch(existing, unlocked, newIds)
      invariant !again ==> Closed(coerce, configs, stats, unlocked)
      invariant !again ==> passes >= 1
      invariant passes + |all - unlocked| <= |all| + (if again then 0 else 1)
      decreases again, |all - unlocked|
    {
      ghost var before := unlocked;
      unlocked, broken, newIds, again := UnlockPass(coerce, configs, stats, existing, unlocked, broken, newIds);
      passes := passes + 1;
      SubsetCardinality(all - unlocked, all - before);
      if again {
        assert exists id :: id in unlocked && id !in before;
      }
    }
  }

  lemma {:induction false} IdsBound(configs: seq<AchievementConfig>)
    ensures |Ids(configs)| <= |configs|
  {
    if configs != [] {
      IdsBound(configs[1..]);
      assert Ids(configs) == Ids(configs[1..]) + {configs[0].id};
    }
  }

  // ---------------------------------------------------------------- fault isolation

  function WithoutFaulty(coerce: Coercion, configs: seq<AchievementConfig>): (r: seq<AchievementConfig>)
    ensures forall c :: c in r <==> c in configs && !Faulty(coerce, c.rule)
  {
    if configs == [] then []
    else (if Faulty(coerce, configs[0].rule) then [] else [configs[0]]) + WithoutFaulty(coerce, configs[1..])
  }

  lemma ClosedIgnoresFaulty(coerce: Coercion, configs: seq<AchievementConfig>, stats: Stats, s: set<string>)
    ensures Closed(coerce, configs, stats, s) <==> Closed(coerce, WithoutFaulty(coerce, configs), stats, s)
  {
    forall c | c in configs && Faulty(coerce, c.rule) ensures !Fires(coerce, c, stats, s) {
      FaultyNeverHolds(coerce, c.rule, Context(stats.purchaseCount, stats.totalSpendKobo, s));
    }
  }

  /** A broken config never costs or grants another: the outcome is that of the catalogue without it. */
  lemma FaultIsolation(coerce: Coercion, configs: seq<AchievementConfig>, stats: Stats, base: set<string>,
      s: set<string>)
    ensures IsLeastClosure(coerce, configs, stats, base, s) <==>
            IsLeastClosure(coerce, WithoutFaulty(coerce, configs), stats, base, s)
  {
    forall t ensures Closed(coerce, configs, stats, t) <==> Closed(coerce, WithoutFaulty(coerce, configs), stats, t) {
      ClosedIgnoresFaulty(coerce, configs, stats, t);
    }
  }

  // ---------------------------------------------------------------- incremental equals batch

  /**
   * Catching up later is the same as starting over: the least closure at the new, larger stats over
   * what was unlocked at the old stats is the least closure at the new stats over the original base.
   */
  lemma IncrementalIsBatch(coerce: Coercion, configs: seq<AchievementConfig>, before: Stats, after: Stats,
                           base: set<string>, mid: set<string>, s: set<string>)
    requires StatsLeq(before, after)
    requires IsLeastClosure(coerce, configs, before, base, mid)
    requires IsLeastClosure(coerce, configs, after, mid, s)
    ensures IsLeastClosure(coerce, configs, after, base, s)
  {
    forall t: set<string> | base <= t && Closed(coerce, configs, after, t) ensures s <= t {
      forall c | c in configs && Fires(coerce, c, before, t) ensures c.id in t {
        FiresMonotone(coerce, c, before, t, after, t);
      }
      assert Closed(coerce, configs, before, t);
      assert mid <= t;
    }
  }

  lemma LeastClosureOrderFree(coerce: Coercion, configs: seq<AchievementConfig>, permuted: seq<AchievementConfig>,
                              stats: Stats, base: set<string>, s: set<string>)
    requires Elements(configs) == Elements(permuted)
    ensures IsLeastClosure(coerce, configs, stats, base, s) <==> IsLeastClosure(coerce, permuted, stats, base, s)
  {
    assert forall c :: c in configs <==> c in Elements(configs);
    assert forall c :: c in permuted <==> c in Elements(permuted);
    forall t ensures Closed(coerce, configs, stats, t) <==> Closed(coerce, permuted, stats, t) {
    }
  }
}
