/** The progress figure of getBadgeState, compared with the true distance to the next badge. */
module BadgeProgress {
  import opened Json
  import opened Collections
  import opened Closure
  import opened Loyalty
  import LoyaltyRuns

  /** requiredAchievementIds.filter(not unlocked).length: repeats in the list count each time. */
  function MissingCount(ids: seq<string>, unlocked: set<string>): (n: nat) {
    if ids == [] then 0
    else (if ids[0] in unlocked then 0 else 1) + MissingCount(ids[1..], unlocked)
  }

  function Max(a: int, b: int): int {
    if a >= b then a else b
  }

  /** remainingToUnlockNextBadge */
  function Remaining(badge: BadgeConfig, count: nat, unlocked: set<string>): (r: nat) {
    Max(Max(badge.requiredCount - count, MissingCount(badge.requiredIds, unlocked)), 0)
  }

  /** badges.find(not yet unlocked) */
  function NextBadge(badges: seq<BadgeConfig>, have: set<string>): (r: Option<BadgeConfig>)
    ensures r.Some? ==> r.value in badges && r.value.id !in have
    ensures r.None? ==> forall b | b in badges :: b.id in have
  {
    if badges == [] then None
    else if badges[0].id !in have then Some(badges[0])
    else NextBadge(badges[1..], have)
  }

  /** The next badge is the first one in order that is not held. */
  lemma {:induction false} NextBadgeIsFirst(badges: seq<BadgeConfig>, have: set<string>, k: nat)
    requires k < |badges| && badges[k].id !in have && forall i | 0 <= i < k :: badges[i].id in have
    ensures NextBadge(badges, have) == Some(badges[k])
  {
    if k > 0 {
      NextBadgeIsFirst(badges[1..], have, k - 1);
    }
  }

  /** Unlocking extra, all of it new, earns the badge. */
  predicate Reaches(badge: BadgeConfig, unlocked: set<string>, extra: set<string>) {
    extra !! unlocked && Meets(badge, |unlocked + extra|, unlocked + extra)
  }

  /** d is the least number of further achievements that earns the badge. */
  ghost predicate IsDistance(badge: BadgeConfig, unlocked: set<string>, d: nat) {
    && (exists extra :: Reaches(badge, unlocked, extra) && |extra| == d)
    && (forall extra | Reaches(badge, unlocked, extra) :: |extra| >= d)
  }

  // ---------------------------------------------------------------- fresh achievement ids

  lemma {:induction false} LongString(avoid: set<string>) returns (n: nat)
    ensures forall s | s in avoid :: |s| < n
  {
    if avoid == {} {
      n := 0;
    } else {
      var s :| s in avoid;
      var m := LongString(avoid - {s});
      n := Max(m, |s| + 1);
      assert forall t | t in avoid :: t == s || t in avoid - {s};
    }
  }

  lemma {:induction false} FreshIds(avoid: set<string>, n: nat) returns (ids: set<string>)
    ensures |ids| == n && ids !! avoid
    decreases n
  {
    ids := {};
    if n > 0 {
      var k := LongString(avoid);
      var id := seq(k, _ => 'a');
      assert id !in avoid;
      var rest := FreshIds(avoid + {id}, n - 1);
      ids := rest + {id};
    }
  }

  // ---------------------------------------------------------------- exactness

  function MissingSet(ids: seq<string>, unlocked: set<string>): (r: set<string>) {
    Elements(ids) - unlocked
  }

  lemma MissingSetStep(ids: seq<string>, unlocked: set<string>)
    requires ids != []
    ensures MissingSet(ids, unlocked) == MissingSet(ids[1..], unlocked) + (if ids[0] in unlocked then {} else {ids[0]})
    ensures NoRepeats(ids) ==> ids[0] !in MissingSet(ids[1..], unlocked) && NoRepeats(ids[1..])
  {
    assert ids == [ids[0]] + ids[1..];
  }

  lemma {:induction false} MissingAtLeastSet(ids: seq<string>, unlocked: set<string>)
    ensures MissingCount(ids, unlocked) >= |MissingSet(ids, unlocked)|
    ensures NoRepeats(ids) ==> MissingCount(ids, unlocked) == |MissingSet(ids, unlocked)|
  {
    if ids == [] {
      assert MissingSet(ids, unlocked) == {};
    } else {
      MissingAtLeastSet(ids[1..], unlocked);
      MissingSetStep(ids, unlocked);
    }
  }

  /** Zero remaining is the same as having earned the badge, even with repeated ids. */
  lemma {:induction false} MissingNoneIffAll(ids: seq<string>, unlocked: set<string>)
    ensures MissingCount(ids, unlocked) == 0 <==> forall id | id in ids :: id in unlocked
  {
    if ids != [] {
      MissingNoneIffAll(ids[1..], unlocked);
      assert forall id :: id in ids <==> id == ids[0] || id in ids[1..];
    }
  }

  lemma RemainingZeroIffMet(badge: BadgeConfig, unlocked: set<string>)
    ensures Remaining(badge, |unlocked|, unlocked) == 0 <==> Meets(badge, |unlocked|, unlocked)
  {
    MissingNoneIffAll(badge.requiredIds, unlocked);
  }

  lemma ReachingNeeds(badge: BadgeConfig, unlocked: set<string>, extra: set<string>)
    requires Reaches(badge, unlocked, extra)
    ensures |extra| >= badge.requiredCount - |unlocked|
    ensures MissingSet(badge.requiredIds, unlocked) <= extra
    ensures |extra| >= |MissingSet(badge.requiredIds, unlocked)|
  {
    SubsetCardinality(MissingSet(badge.requiredIds, unlocked), extra);
  }

  /** Any number of further unlocks that covers both demands can be realised. */
  lemma ReachingWith(badge: BadgeConfig, unlocked: set<string>, n: nat) returns (extra: set<string>)
    requires n >= badge.requiredCount - |unlocked|
    requires n >= |MissingSet(badge.requiredIds, unlocked)|
    ensures Reaches(badge, unlocked, extra) && |extra| == n
  {
    var missing := MissingSet(badge.requiredIds, unlocked);
    var padding := FreshIds(unlocked + missing, n - |missing|);
    extra := missing + padding;
    assert |unlocked + extra| == |unlocked| + |extra|;
    assert forall id | id in badge.requiredIds :: id in Elements(badge.requiredIds);
  }

  /** With a repeat-free list the reported figure is the exact distance, from every set of unlocks. */
  lemma RemainingIsDistance(badge: BadgeConfig, unlocked: set<string>)
    requires NoRepeats(badge.requiredIds)
    ensures IsDistance(badge, unlocked, Remaining(badge, |unlocked|, unlocked))
  {
    var r := Remaining(badge, |unlocked|, unlocked);
    MissingAtLeastSet(badge.requiredIds, unlocked);
    var extra := ReachingWith(badge, unlocked, r);
    forall e | Reaches(badge, unlocked, e) ensures |e| >= r {
      ReachingNeeds(badge, unlocked, e);
    }
  }

  lemma {:induction false} RepeatsAreFewer(ids: seq<string>)
    requires !NoRepeats(ids)
    ensures |Elements(ids)| < |ids|
  {
    var init, last := ids[..|ids| - 1], ids[|ids| - 1];
    assert ids == init + [last];
    assert Elements(ids) == Elements(init) + {last};
    if NoRepeats(init) {
      NoRepeatsCardinality(init);
      assert last in Elements(init);
    } else {
      RepeatsAreFewer(init);
    }
  }

  lemma {:induction false} NothingUnlockedOf(ids: seq<string>, unlocked: set<string>)
    requires Elements(ids) !! unlocked
    ensures MissingCount(ids, unlocked) == |ids|
  {
    if ids != [] {
      assert ids[0] in Elements(ids);
      assert Elements(ids[1..]) <= Elements(ids);
      NothingUnlockedOf(ids[1..], unlocked);
    }
  }

  /** A list with a repeat overstates the distance for some user. */
  lemma RepeatsOverstate(badge: BadgeConfig) returns (unlocked: set<string>)
    requires !NoRepeats(badge.requiredIds)
    ensures !IsDistance(badge, unlocked, Remaining(badge, |unlocked|, unlocked))
  {
    var ids := badge.requiredIds;
    unlocked := FreshIds(Elements(ids), Max(badge.requiredCount, 0));
    NothingUnlockedOf(ids, unlocked);
    RepeatsAreFewer(ids);
    assert MissingSet(ids, unlocked) == Elements(ids);
    var extra := ReachingWith(badge, unlocked, |Elements(ids)|);
  }

  /** The progress figure is right for every user exactly when the required list has no repeats. */
  lemma ExactIffNoRepeats(badge: BadgeConfig)
    ensures (forall unlocked :: IsDistance(badge, unlocked, Remaining(badge, |unlocked|, unlocked))) <==>
            NoRepeats(badge.requiredIds)
  {
    if NoRepeats(badge.requiredIds) {
      forall unlocked ensures IsDistance(badge, unlocked, Remaining(badge, |unlocked|, unlocked)) {
        RemainingIsDistance(badge, unlocked);
      }
    } else {
      var unlocked := RepeatsOverstate(badge);
    }
  }

  /** After any processed purchase under unchanged config, the next badge reported is still some way off. */
  lemma NextBadgeIsAhead(cat: Catalog, events: LoyaltyRuns.Events, db: Db, user: string)
    requires LoyaltyRuns.Inv(cat, events, db) && user in db.stats
    ensures
      var next := NextBadge(cat.badges, BadgesOf(db.badges, user));
      next.Some? ==> Remaining(next.value, RowCount(db.achievements, user), AchievementsOf(db.achievements, user)) > 0
  {
    var next := NextBadge(cat.badges, BadgesOf(db.badges, user));
    var unlocked := AchievementsOf(db.achievements, user);
    assert LoyaltyRuns.BatchEqual(cat, db, user);
    RowCountIsCardinality(db.achievements, user);
    if next.Some? {
      RemainingZeroIffMet(next.value, unlocked);
    }
  }
}
