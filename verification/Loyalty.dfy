/** The loyalty service: one purchase event in, counters, unlocks and outbox rows out. */
module Loyalty {
  import opened Json
  import opened Rules
  import opened Collections
  import opened Closure

  datatype BadgeConfig = BadgeConfig(id: string, name: string, requiredCount: int, requiredIds: seq<string>,
    reward: nat)

  /** The active configs as the handler reads them, in whatever order the query returns. */
  datatype Catalog = Catalog(coerce: Coercion, achievements: seq<AchievementConfig>, badges: seq<BadgeConfig>)

  /** A PurchaseCompleted event. The amount is validated to be positive where purchases are created. */
  datatype PurchaseEvent = PurchaseEvent(id: nat, user: string, amount: nat)

  datatype UserAchievement = UserAchievement(user: string, achievementId: string)
  datatype UserBadge = UserBadge(user: string, badgeId: string)

  /**
   * An outbox row. Its position in the outbox is its event id, which makes ids fresh by construction.
   * The config ids are carried for the statements; the wire payload has only the names.
   */
  datatype Announcement =
    | AchievementUnlocked(achievementId: string, name: string, user: string)
    | BadgeUnlocked(badgeId: string, badgeName: string, reward: nat, payee: string)

  datatype Db = Db(
    stats: map<string, Stats>,
    achievements: seq<UserAchievement>,
    badges: seq<UserBadge>,
    processed: set<nat>,
    outbox: seq<Announcement>)

  const EmptyDb := Db(map[], [], [], {}, [])

  predicate ValidCatalog(cat: Catalog) {
    DistinctIds(cat.achievements) &&
    forall i, j | 0 <= i < j < |cat.badges| :: cat.badges[i].id != cat.badges[j].id
  }

  function StatsOf(stats: map<string, Stats>, user: string): (r: Stats) {
    if user in stats then stats[user] else Stats(0, 0)
  }

  function AchievementsOf(rows: seq<UserAchievement>, user: string): (r: set<string>) {
    set r | r in rows && r.user == user :: r.achievementId
  }

  function BadgesOf(rows: seq<UserBadge>, user: string): (r: set<string>) {
    set r | r in rows && r.user == user :: r.badgeId
  }

  /** The length of the row list the service loads for a user. */
  function RowCount(rows: seq<UserAchievement>, user: string): (n: nat) {
    if rows == [] then 0
    else RowCount(rows[..|rows| - 1], user) + (if rows[|rows| - 1].user == user then 1 else 0)
  }

  /** meetsBadgeRequirement */
  predicate Meets(badge: BadgeConfig, count: int, unlocked: set<string>) {
    count >= badge.requiredCount && forall id | id in badge.requiredIds :: id in unlocked
  }

  function MetBadges(badges: seq<BadgeConfig>, unlocked: set<string>): (r: set<string>) {
    set b | b in badges && Meets(b, |unlocked|, unlocked) :: b.id
  }

  /** With one row per user and achievement, counting rows is counting achievements. */
  lemma {:induction false} RowCountIsCardinality(rows: seq<UserAchievement>, user: string)
    requires NoRepeats(rows)
    ensures RowCount(rows, user) == |AchievementsOf(rows, user)|
  {
    if rows != [] {
      var init, last := rows[..|rows| - 1], rows[|rows| - 1];
      assert rows == init + [last];
      RowCountIsCardinality(init, user);
      if last.user == user {
        assert AchievementsOf(rows, user) == AchievementsOf(init, user) + {last.achievementId};
        assert forall r | r in init :: r != last;
      } else {
        assert AchievementsOf(rows, user) == AchievementsOf(init, user);
      }
    }
  }

  // ---------------------------------------------------------------- what one event does

  function AchievementNews(configs: seq<AchievementConfig>, user: string, added: set<string>): (r: set<Announcement>) {
    set c | c in configs && c.id in added :: AchievementUnlocked(c.id, c.name, user)
  }

  function BadgeNews(badges: seq<BadgeConfig>, user: string, added: set<string>): (r: set<Announcement>) {
    set b | b in badges && b.id in added :: BadgeUnlocked(b.id, b.name, b.reward, user)
  }

  ghost predicate AchievementStep(cat: Catalog, db: Db, ev: PurchaseEvent, db': Db) {
    var stats := StatsOf(db'.stats, ev.user);
    && db.achievements <= db'.achievements
    && NoRepeats(db'.achievements)
    && (forall i | |db.achievements| <= i < |db'.achievements| :: db'.achievements[i].user == ev.user)
    && IsLeastClosure(cat.coerce, cat.achievements, stats,
                      AchievementsOf(db.achievements, ev.user), AchievementsOf(db'.achievements, ev.user))
  }

  ghost predicate BadgeStep(cat: Catalog, db: Db, ev: PurchaseEvent, db': Db) {
    && db.badges <= db'.badges
    && NoRepeats(db'.badges)
    && (forall i | |db.badges| <= i < |db'.badges| :: db'.badges[i].user == ev.user)
    && BadgesOf(db'.badges, ev.user) ==
       BadgesOf(db.badges, ev.user) + MetBadges(cat.badges, AchievementsOf(db'.achievements, ev.user))
  }

  /** One outbox row per new achievement and one per new badge, and no others. */
  ghost predicate NewsStep(cat: Catalog, db: Db, ev: PurchaseEvent, db': Db) {
    && db.outbox <= db'.outbox
    && NoRepeats(db'.outbox[|db.outbox|..])
    && Elements(db'.outbox[|db.outbox|..]) ==
       AchievementNews(cat.achievements, ev.user,
                       AchievementsOf(db'.achievements, ev.user) - AchievementsOf(db.achievements, ev.user)) +
       BadgeNews(cat.badges, ev.user, BadgesOf(db'.badges, ev.user) - BadgesOf(db.badges, ev.user))
  }

  /** The relation between the database before and after one committed handling of an event. */
  ghost predicate Handled(cat: Catalog, db: Db, ev: PurchaseEvent, db': Db) {
    if ev.id in db.processed then db' == db
    else
      var before := StatsOf(db.stats, ev.user);
      && db'.processed == db.processed + {ev.id}
      && db'.stats == db.stats[ev.user := Stats(before.purchaseCount + 1, before.totalSpendKobo + ev.amount)]
      && AchievementStep(cat, db, ev, db')
      && BadgeStep(cat, db, ev, db')
      && NewsStep(cat, db, ev, db')
  }

  /** The announcement carries the name, and the reward, of a config with its id, and the buyer. */
  predicate ConfiguredNews(cat: Catalog, user: string, a: Announcement) {
    match a
    case AchievementUnlocked(id, name, payee) =>
      payee == user &&
      exists i | 0 <= i < |cat.achievements| :: cat.achievements[i].id == id && cat.achievements[i].name == name
    case BadgeUnlocked(id, name, reward, payee) =>
      payee == user &&
      exists i | 0 <= i < |cat.badges| ::
        cat.badges[i].id == id && cat.badges[i].name == name && cat.badges[i].reward == reward
  }

  /** A config is announced, under its own name and reward, exactly when this event unlocked it. */
  lemma NewsMeans(cat: Catalog, db: Db, ev: PurchaseEvent, db': Db)
    requires Handled(cat, db, ev, db') && ev.id !in db.processed
    ensures forall a | a in db'.outbox[|db.outbox|..] :: ConfiguredNews(cat, ev.user, a)
    ensures forall c | c in cat.achievements ::
              c.id in AchievementsOf(db'.achievements, ev.user) && c.id !in AchievementsOf(db.achievements, ev.user) ==>
                AchievementUnlocked(c.id, c.name, ev.user) in db'.outbox[|db.outbox|..]
    ensures forall b | b in cat.badges ::
              b.id in BadgesOf(db'.badges, ev.user) && b.id !in BadgesOf(db.badges, ev.user) ==>
                BadgeUnlocked(b.id, b.name, b.reward, ev.user) in db'.outbox[|db.outbox|..]
    ensures forall a | a in db'.outbox[|db.outbox|..] ::
              if a.AchievementUnlocked? then
                a.achievementId in AchievementsOf(db'.achievements, ev.user) - AchievementsOf(db.achievements, ev.user)
              else a.badgeId in BadgesOf(db'.badges, ev.user) - BadgesOf(db.badges, ev.user)
  {
    var tail := db'.outbox[|db.outbox|..];
    assert forall a :: a in tail <==> a in Elements(tail);
    forall a | a in tail ensures ConfiguredNews(cat, ev.user, a) {
      if a.AchievementUnlocked? {
        var c :| c in cat.achievements && a == AchievementUnlocked(c.id, c.name, ev.user);
      } else {
        var b :| b in cat.badges && a == BadgeUnlocked(b.id, b.name, b.reward, ev.user);
      }
    }
  }

  // ---------------------------------------------------------------- the service

  function AchievementRows(user: string, ids: seq<string>): (r: seq<UserAchievement>) {
    seq(|ids|, i requires 0 <= i < |ids| => UserAchievement(user, ids[i]))
  }

  lemma AppendedAchievements(rows: seq<UserAchievement>, user: string, ids: seq<string>, unlocked: set<string>)
    requires NoRepeats(rows) && NoRepeats(ids)
    requires AchievementsOf(rows, user) <= unlocked && Elements(ids) == unlocked - AchievementsOf(rows, user)
    ensures NoRepeats(rows + AchievementRows(user, ids))
    ensures AchievementsOf(rows + AchievementRows(user, ids), user) == unlocked
  {
    var extra := AchievementRows(user, ids);
    var all := rows + extra;
    forall i, j | 0 <= i < j < |all| ensures all[i] != all[j] {
      if i < |rows| <= j {
        assert ids[j - |rows|] in Elements(ids);
        if rows[i].user == user {
          assert rows[i].achievementId in AchievementsOf(rows, user);
        }
      }
    }
    forall id | id in unlocked ensures id in AchievementsOf(all, user) {
      if id in AchievementsOf(rows, user) {
        var r :| r in rows && r.user == user && r.achievementId == id;
        assert r in all;
      } else {
        assert id in Elements(ids);
        var k :| 0 <= k < |ids| && ids[k] == id;
        assert all[|rows| + k] == UserAchievement(user, id);
      }
    }
    forall id | id in AchievementsOf(all, user) ensures id in unlocked {
      var r :| r in all && r.user == user && r.achievementId == id;
      if r !in rows {
        var k :| 0 <= k < |extra| && extra[k] == r;
        assert ids[k] in Elements(ids);
      }
    }
  }

  predicate NewsMatch(configs: seq<AchievementConfig>, user: string, ids: seq<string>, news: seq<Announcement>) {
    |news| == |ids| &&
    forall i | 0 <= i < |ids| :: news[i].AchievementUnlocked? && news[i].achievementId == ids[i] &&
                                 news[i] in AchievementNews(configs, user, Elements(ids))
  }

  lemma NewsMatchElements(configs: seq<AchievementConfig>, user: string, ids: seq<string>, news: seq<Announcement>)
    requires DistinctIds(configs) && NoRepeats(ids) && NewsMatch(configs, user, ids, news)
    ensures NoRepeats(news) && Elements(news) == AchievementNews(configs, user, Elements(ids))
  {
    forall a | a in AchievementNews(configs, user, Elements(ids)) ensures a in news {
      var k :| 0 <= k < |ids| && ids[k] == a.achievementId;
      var c :| c in configs && c.id in Elements(ids) && a == AchievementUnlocked(c.id, c.name, user);
      var d :| d in configs && d.id in Elements(ids) && news[k] == AchievementUnlocked(d.id, d.name, user);
      assert c == d;
      assert news[k] == a;
    }
  }

  predicate BadgeRowsMatch(user: string, rows0: seq<UserBadge>, added: set<string>, rows: seq<UserBadge>) {
    && rows0 <= rows
    && NoRepeats(rows)
    && (forall i | |rows0| <= i < |rows| :: rows[i].user == user)
    && BadgesOf(rows, user) == BadgesOf(rows0, user) + added
  }

  predicate BadgeNewsMatch(badges: seq<BadgeConfig>, n: nat, user: string, added: set<string>, news: seq<Announcement>)
    requires n <= |badges|
  {
    && NoRepeats(news)
    && Elements(news) == BadgeNews(badges[..n], user, added)
    && added <= (set b | b in badges[..n] :: b.id)
  }

  lemma BadgeUnlockStep(badges: seq<BadgeConfig>, n: nat, user: string, rows0: seq<UserBadge>, added: set<string>,
                        rows: seq<UserBadge>, news: seq<Announcement>)
    requires n < |badges|
    requires forall i, j | 0 <= i < j < |badges| :: badges[i].id != badges[j].id
    requires BadgeRowsMatch(user, rows0, added, rows)
    requires BadgeNewsMatch(badges, n, user, added, news)
    requires badges[n].id !in BadgesOf(rows0, user)
    ensures BadgeRowsMatch(user, rows0, added + {badges[n].id}, rows + [UserBadge(user, badges[n].id)])
    ensures BadgeNewsMatch(badges, n + 1, user, added + {badges[n].id},
                           news + [BadgeUnlocked(badges[n].id, badges[n].name, badges[n].reward, user)])
  {
    var b := badges[n];
    var row, ann := UserBadge(user, b.id), BadgeUnlocked(b.id, b.name, b.reward, user);
    assert badges[..n + 1] == badges[..n] + [b];
    assert b.id !in added;
    assert forall r | r in rows && r.user == user :: r.badgeId in BadgesOf(rows, user);
    assert BadgesOf(rows + [row], user) == BadgesOf(rows, user) + {b.id};
    assert ann !in Elements(news);
    assert Elements(news + [ann]) == Elements(news) + {ann};
    assert BadgeNews(badges[..n + 1], user, added + {b.id}) == BadgeNews(badges[..n], user, added) + {ann};
  }

  lemma BadgeSkipStep(badges: seq<BadgeConfig>, n: nat, user: string, added: set<string>, news: seq<Announcement>)
    requires n < |badges|
    requires forall i, j | 0 <= i < j < |badges| :: badges[i].id != badges[j].id
    requires BadgeNewsMatch(badges, n, user, added, news)
    ensures BadgeNewsMatch(badges, n + 1, user, added, news)
    ensures badges[n].id !in added
  {
    assert badges[..n + 1] == badges[..n] + [badges[n]];
    assert badges[n].id !in added;
    assert BadgeNews(badges[..n + 1], user, added) == BadgeNews(badges[..n], user, added);
  }

  /** The fields of the class are the tables of the loyalty database. */
  class LoyaltyService {
    const cat: Catalog
    var stats: map<string, Stats>
    var achievements: seq<UserAchievement>
    var badges: seq<UserBadge>
    var processed: set<nat>
    var outbox: seq<Announcement>

    ghost predicate Valid()
      reads this
    {
      ValidCatalog(cat) && NoRepeats(achievements) && NoRepeats(badges)
    }

    ghost function State(): (db: Db)
      reads this
    {
      Db(stats, achievements, badges, processed, outbox)
    }

    constructor (cat: Catalog)
      requires ValidCatalog(cat)
      ensures Valid() && this.cat == cat && State() == EmptyDb
    {
      this.cat := cat;
      stats, achievements, badges, processed, outbox := map[], [], [], {}, [];
    }

    method HandlePurchaseCompleted(ev: PurchaseEvent)
      requires Valid()
      modifies this
      ensures Valid()
      ensures Handled(cat, old(State()), ev, State())
    {
      if ev.id in processed {
        return;
      }
      var current := StatsOf(stats, ev.user);
      var updated := Stats(current.purchaseCount + 1, current.totalSpendKobo + ev.amount);
      stats := stats[ev.user := updated];
      var news := RecordAchievements(ev.user, updated);
      label saved:
      var badgeNews := UnlockBadges(ev.user);
      outbox := outbox + news + badgeNews;
      processed := processed + {ev.id};
      assert outbox[|old(outbox)|..] == news + badgeNews;
      assert Elements(news + badgeNews) == Elements(news) + Elements(badgeNews);
      assert NoRepeats(news + badgeNews) by {
        assert forall a | a in Elements(news) :: a.AchievementUnlocked?;
        assert forall a | a in Elements(badgeNews) :: a.BadgeUnlocked?;
        assert forall i | 0 <= i < |news| :: news[i] in Elements(news);
        assert forall i | 0 <= i < |badgeNews| :: badgeNews[i] in Elements(badgeNews);
      }
    }

    /** The unlock loop, with a UserAchievement row and an announcement for each new id. */
    method RecordAchievements(user: string, s: Stats) returns (news: seq<Announcement>)
      requires Valid()
      modifies this`achievements
      ensures Valid()
      ensures old(achievements) <= achievements
      ensures forall i | |old(achievements)| <= i < |achievements| :: achievements[i].user == user
      ensures IsLeastClosure(cat.coerce, cat.achievements, s, AchievementsOf(old(achievements), user),
              AchievementsOf(achievements, user))
      ensures NoRepeats(news)
      ensures Elements(news) ==
              AchievementNews(cat.achievements, user,
                AchievementsOf(achievements, user) - AchievementsOf(old(achievements), user))
    {
      var existing := AchievementsOf(achievements, user);
      var unlocked, newIds, _ := UnlockAchievements(cat.coerce, cat.achievements, s, existing);
      AppendedAchievements(achievements, user, newIds, unlocked);
      NewIdsAreConfigured(cat.coerce, cat.achievements, s, existing, unlocked);
      achievements := achievements + AchievementRows(user, newIds);
      news := [];
      for i := 0 to |newIds|
        invariant |news| == i
        invariant forall j | 0 <= j < i :: news[j].AchievementUnlocked? && news[j].achievementId == newIds[j] &&
                                           news[j] in AchievementNews(cat.achievements, user, Elements(newIds))
      {
        assert newIds[i] in Elements(newIds);
        var c :| c in cat.achievements && c.id == newIds[i];
        news := news + [AchievementUnlocked(c.id, c.name, user)];
      }
      NewsMatchElements(cat.achievements, user, newIds, news);
    }

    method UnlockBadges(user: string) returns (news: seq<Announcement>)
      requires Valid()
      modifies this`badges
      ensures Valid()
      ensures old(badges) <= badges
      ensures forall i | |old(badges)| <= i < |badges| :: badges[i].user == user
      ensures BadgesOf(badges, user) == BadgesOf(old(badges), user) +
              MetBadges(cat.badges, AchievementsOf(achievements, user))
      ensures NoRepeats(news)
      ensures Elements(news) == BadgeNews(cat.badges, user, BadgesOf(badges, user) - BadgesOf(old(badges), user))
    {
      RowCountIsCardinality(achievements, user);
      badges, news := EarnBadges(cat.badges, user, badges, AchievementsOf(achievements, user),
        RowCount(achievements, user));
    }
  }

  /** The loop of unlockBadges: rows and announcements for the badges now met and not yet held. */
  method EarnBadges(configs: seq<BadgeConfig>, user: string, rows0: seq<UserBadge>, unlocked: set<string>, count: nat)
    returns (rows: seq<UserBadge>, news: seq<Announcement>)
    requires forall i, j | 0 <= i < j < |configs| :: configs[i].id != configs[j].id
    requires NoRepeats(rows0) && count == |unlocked|
    ensures rows0 <= rows && NoRepeats(rows)
    ensures forall i | |rows0| <= i < |rows| :: rows[i].user == user
    ensures BadgesOf(rows, user) == BadgesOf(rows0, user) + MetBadges(configs, unlocked)
    ensures NoRepeats(news)
    ensures Elements(news) == BadgeNews(configs, user, BadgesOf(rows, user) - BadgesOf(rows0, user))
  {
    var existing := BadgesOf(rows0, user);
    rows, news := rows0, [];
    ghost var added: set<string> := {};
    assert BadgeNewsMatch(configs, 0, user, added, news);
    for i := 0 to |configs|
      invariant BadgeRowsMatch(user, rows0, added, rows)
      invariant BadgeNewsMatch(configs, i, user, added, news)
      invariant added == NewlyMet(configs, i, unlocked, existing)
    {
      var badge := configs[i];
      NewlyMetStep(configs, i, unlocked, existing);
      if badge.id in existing || !Meets(badge, count, unlocked) {
        BadgeSkipStep(configs, i, user, added, news);
        continue;
      }
      BadgeUnlockStep(configs, i, user, rows0, added, rows, news);
      rows := rows + [UserBadge(user, badge.id)];
      news := news + [BadgeUnlocked(badge.id, badge.name, badge.reward, user)];
      added := added + {badge.id};
    }
    BadgesDone(configs, user, rows0, rows, unlocked, news);
  }

  function NewlyMet(badges: seq<BadgeConfig>, n: nat, unlocked: set<string>, existing: set<string>): (r: set<string>)
    requires n <= |badges|
  {
    set b | b in badges[..n] && Meets(b, |unlocked|, unlocked) && b.id !in existing :: b.id
  }

  lemma NewlyMetStep(badges: seq<BadgeConfig>, n: nat, unlocked: set<string>, existing: set<string>)
    requires n < |badges|
    ensures NewlyMet(badges, n + 1, unlocked, existing) ==
            if badges[n].id in existing || !Meets(badges[n], |unlocked|, unlocked) then
              NewlyMet(badges, n, unlocked, existing)
            else NewlyMet(badges, n, unlocked, existing) + {badges[n].id}
  {
    assert badges[..n + 1] == badges[..n] + [badges[n]];
  }

  lemma BadgesDone(badges: seq<BadgeConfig>, user: string, rows0: seq<UserBadge>, rows: seq<UserBadge>,
                   unlocked: set<string>, news: seq<Announcement>)
    requires BadgeRowsMatch(user, rows0, NewlyMet(badges, |badges|, unlocked, BadgesOf(rows0, user)), rows)
    requires BadgeNewsMatch(badges, |badges|, user, NewlyMet(badges, |badges|, unlocked, BadgesOf(rows0, user)), news)
    ensures BadgesOf(rows, user) == BadgesOf(rows0, user) + MetBadges(badges, unlocked)
    ensures Elements(news) == BadgeNews(badges, user, BadgesOf(rows, user) - BadgesOf(rows0, user))
  {
    assert badges[..|badges|] == badges;
    var existing := BadgesOf(rows0, user);
    var added := NewlyMet(badges, |badges|, unlocked, existing);
    assert existing + added == existing + MetBadges(badges, unlocked);
    assert BadgesOf(rows, user) - existing == added;
  }

  /** Only configured achievements are ever added. */
  lemma NewIdsAreConfigured(coerce: Coercion, configs: seq<AchievementConfig>, stats: Stats, base: set<string>,
      s: set<string>)
    requires IsLeastClosure(coerce, configs, stats, base, s)
    ensures s - base <= Ids(configs)
  {
    var t := base + Ids(configs);
    assert Closed(coerce, configs, stats, t);
    assert s <= t;
  }
}
